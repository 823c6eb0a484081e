/**
 * The host as the script sees it, and the script's state-changing steps
 * (scripts/usb_reset.py:104-210).
 *
 * A World is the host state the script changes: directories, the mount
 * table, what has been written to each cgroup control file, device-node
 * owners, and the ordered record of the operating-system calls that took
 * effect. An Oracle is what the host answers and never changes during a run:
 * what `os.stat` reports, the contents of readable files, and the calls the
 * kernel refuses. The specification functions below give the World a run ends in;
 * class HostState performs the same steps one call at a time, and every
 * method is proved to end in the World its specification function gives.
 */
module Host {
  import opened Options
  import opened Decimal
  import opened DeviceNames
  import opened UsbReset

  /** A filesystem mounted with /usr/bin/mount. */
  datatype Mount = Bind(source: string, target: string) | Sysfs(target: string)

  /** The operating-system calls of the script that read a file or change the host. */
  datatype Op =
    | ReadFile(path: string)
    | Ioctl(path: string, request: bv16)
    | Chown(path: string, owner: Ids)
    | Mkdir(path: string, mode: int)
    | MountFs(entry: Mount)
    | Write(path: string, data: string)

  /** `0755`, the mode of every directory the script creates. */
  const DirMode := 493

  /** Fixed answers of the host: stat results, readable file contents, refused calls. */
  datatype Oracle = Oracle(nodes: map<string, Node>, files: map<string, string>, refused: set<Op>)

  predicate StartsWith(s: string, prefix: string) {
    |prefix| <= |s| && s[..|prefix|] == prefix
  }

  /** The directories a bind mount makes visible under its target. */
  function MountedDirs(dirs: set<string>, m: Mount): set<string> {
    match m
    case Bind(source, target) =>
      set d | d in dirs && StartsWith(d, source + "/") :: target + d[|source| + 1..]
    case Sysfs(_) => {}
  }

  /** The World-side effect of each call, in one table. */
  datatype World = World(
    dirs: set<string>,
    mounts: seq<Mount>,
    logs: map<string, seq<string>>,
    owners: map<string, Ids>,
    calls: seq<Op>)
  {
    /** Everything written to a control file so far. */
    function Written(path: string): seq<string> {
      if path in logs then logs[path] else []
    }

    /** The state after a call that succeeded. */
    function Apply(op: Op): World {
      var w := this.(calls := calls + [op]);
      match op
      case ReadFile(_) => w
      case Ioctl(_, _) => w
      case Chown(path, owner) => w.(owners := owners[path := owner])
      case Mkdir(path, _) => w.(dirs := dirs + {path})
      case MountFs(m) => w.(mounts := mounts + [m], dirs := dirs + MountedDirs(dirs, m))
      case Write(path, data) => w.(logs := logs[path := Written(path) + [data]])
    }

    function Appended(path: string, data: string): World {
      Apply(Write(path, data))
    }

    /** Several writes to one file, in order. */
    function AppendedAll(path: string, lines: seq<string>): World {
      this.(logs := logs[path := Written(path) + lines], calls := calls + Writes(path, lines))
    }
  }

  function Writes(path: string, lines: seq<string>): (ops: seq<Op>)
    ensures |ops| == |lines| && forall i :: 0 <= i < |lines| ==> ops[i] == Write(path, lines[i])
  {
    seq(|lines|, i requires 0 <= i < |lines| => Write(path, lines[i]))
  }

  lemma AppendedAllSnoc(w: World, path: string, lines: seq<string>, line: string)
    ensures w.AppendedAll(path, lines + [line]) == w.AppendedAll(path, lines).Appended(path, line)
  {
    assert Writes(path, lines + [line]) == Writes(path, lines) + [Write(path, line)];
    assert w.Written(path) + (lines + [line]) == w.Written(path) + lines + [line];
  }

  lemma AppendedAllEmpty(w: World, path: string)
    ensures w.AppendedAll(path, []) == w.(logs := w.logs[path := w.Written(path)])
  {
    assert Writes(path, []) == [];
    assert w.calls + [] == w.calls;
    assert w.Written(path) + [] == w.Written(path);
  }

  /** When the host refuses a call: a missing file, an existing directory, or the oracle says so. */
  predicate Refuses(o: Oracle, w: World, op: Op) {
    match op
    case ReadFile(path) => path !in o.files
    case Mkdir(path, _) => path in w.dirs || op in o.refused
    case Write(_, _) => false
    case _ => op in o.refused
  }

  /**
   * How a run stands: still running, or stopped with exit status 1 (each
   * `exit(1)` of the script, and each exception it lets escape, which also
   * ends CPython with status 1). A run that is still Running at the end
   * exits with status 0.
   */
  datatype Outcome = Running(world: World) | Exit1(world: World) {
    predicate IsFailure() { Exit1? }
    function PropagateFailure(): Outcome requires Exit1? { this }
    function Extract(): World requires Running? { world }
  }

  function ExitCode(r: Outcome): int {
    if r.Exit1? then 1 else 0
  }

  /** One call: its effect if the host accepts it, no effect and exit 1 if not. */
  function Try(o: Oracle, w: World, op: Op): (r: Outcome)
    ensures r.Exit1? <==> Refuses(o, w, op)
    ensures r.Exit1? ==> r.world == w
    ensures r.Running? ==> r.world.calls == w.calls + [op]
  {
    if Refuses(o, w, op) then Exit1(w) else Running(w.Apply(op))
  }

  /** `read_int`: the first line of the file as an integer (IOError or ValueError: None). */
  function IntOfFile(o: Oracle, path: string): (r: Option<int>)
    ensures path !in o.files ==> r.None?
  {
    if path in o.files then ParseInt(FirstLine(o.files[path])) else None
  }

  function BusFile(device: string, attribute: string): string {
    "/sys/bus/usb/devices/" + device + "/" + attribute
  }

  /** Reading `busnum` and `devnum` (usb_reset.py:170-171). */
  function Locate(o: Oracle, w: World, device: string): (r: Outcome)
    ensures r.Running? <==>
      IntOfFile(o, BusFile(device, "busnum")).Some? && IntOfFile(o, BusFile(device, "devnum")).Some?
  {
    var busFile, devFile := BusFile(device, "busnum"), BusFile(device, "devnum");
    var w1 :- Try(o, w, ReadFile(busFile));
    if IntOfFile(o, busFile).None? then Exit1(w1)
    else
      var w2 :- Try(o, w1, ReadFile(devFile));
      if IntOfFile(o, devFile).None? then Exit1(w2) else Running(w2)
  }

  /** The device node of a located device. */
  function NodePath(o: Oracle, device: string): string
    requires IntOfFile(o, BusFile(device, "busnum")).Some? && IntOfFile(o, BusFile(device, "devnum")).Some?
  {
    DevPath(IntOfFile(o, BusFile(device, "busnum")).value, IntOfFile(o, BusFile(device, "devnum")).value)
  }

  /** `create_and_join_cgroup` (usb_reset.py:104-140). */
  function CreateCgroup(o: Oracle, w: World, domId: Option<int>, pid: int): (r: Outcome)
    ensures r.Exit1? ==> r.world == w
    ensures r.Running? ==> CgDir(domId) !in w.dirs && r.world.dirs == w.dirs + {CgDir(domId)}
    ensures r.world.mounts == w.mounts && r.world.owners == w.owners
  {
    var w1 :- Try(o, w, Mkdir(CgDir(domId), DirMode));
    Running(SetUpCgroup(w1, CgDir(domId), Rules(o.nodes, Whitelist), pid))
  }

  /** The writes to a new control group `cg`: deny all, allow the storage backend and `rules`, then join. */
  function SetUpCgroup(w: World, cg: string, rules: seq<string>, pid: int): (r: World)
    ensures r.dirs == w.dirs && r.mounts == w.mounts && r.owners == w.owners
  {
    w.Appended(cg + "devices.deny", DenyAll)
     .Appended(cg + "devices.allow", SmBackendRule)
     .AppendedAll(cg + "devices.allow", rules)
     .Appended(cg + "tasks", IntToString(pid))
  }

  /**
   * `allow_device` (file "devices.allow") and `deny_device` (file
   * "devices.deny"): opening the control file fails unless the control group
   * exists; the rule is written only when `get_dev_control(path, "rw")` gives one.
   */
  function EditRule(o: Oracle, w: World, domId: Option<int>, file: string, path: string): (r: Outcome)
    ensures r.Exit1? <==> CgDir(domId) !in w.dirs
    ensures r.Exit1? ==> r.world == w
    ensures r.world.dirs == w.dirs && r.world.mounts == w.mounts && r.world.owners == w.owners
  {
    var cg := CgDir(domId);
    if cg !in w.dirs then Exit1(w)
    else
      match DevControl(Stat(o.nodes, path), "rw")
      case None => Running(w)
      case Some(rule) => Running(w.Appended(cg + file, rule))
  }

  /** The first device of a guest: bind-mount /dev, then set up the control group. */
  function FirstAttach(o: Oracle, w: World, domId: Option<int>, pid: int, root: string): Outcome {
    var w1 :- Try(o, w, MountFs(Bind("/dev", root + "dev/")));
    CreateCgroup(o, w1, domId, pid)
  }

  /** Creating `sys/` in the guest root and mounting sysfs there. */
  function MountSys(o: Oracle, w: World, root: string): Outcome {
    var w1 :- Try(o, w, Mkdir(root + "sys/", DirMode));
    Try(o, w1, MountFs(Sysfs(root + "sys/")))
  }

  /** The first guarded step of attach: skipped once the guest's `dev/bus/` exists (usb_reset.py:198-201). */
  function BusStep(o: Oracle, w: World, domId: Option<int>, pid: int, root: string): (r: Outcome)
    ensures root + "dev/bus/" in w.dirs ==> r == Running(w)
    ensures w.dirs <= r.world.dirs && r.world.owners == w.owners
    ensures r.Exit1? ==> r.world.logs == w.logs
  {
    if root + "dev/bus/" in w.dirs then Running(w) else FirstAttach(o, w, domId, pid, root)
  }

  /** The second guarded step of attach: skipped once the guest's `sys/` exists (usb_reset.py:203-205). */
  function SysStep(o: Oracle, w: World, root: string): (r: Outcome)
    ensures root + "sys/" in w.dirs ==> r == Running(w)
    ensures w.dirs <= r.world.dirs && r.world.owners == w.owners && r.world.logs == w.logs
    ensures r.Running? ==> root + "sys/" in r.world.dirs
  {
    if root + "sys/" in w.dirs then Running(w) else MountSys(o, w, root)
  }

  /** Attach (usb_reset.py:198-207): the two guarded create-if-absent steps, then the allow rule. */
  function Attach(o: Oracle, w: World, domId: Option<int>, pid: int, root: string, path: string): (r: Outcome)
    ensures w.dirs <= r.world.dirs && r.world.owners == w.owners
  {
    var w1 :- BusStep(o, w, domId, pid, root);
    var w2 :- SysStep(o, w1, root);
    EditRule(o, w2, domId, "devices.allow", path)
  }

  /** The parsed command line; `ids` is the pair given with `-i`. */
  datatype Args = Args(device: string, pid: Option<int>, reset: bool, domId: Option<int>, ids: Option<Ids>)

  /** argparse's mutually exclusive group: `-d` and `-i` are never both given. */
  predicate ArgsParsed(a: Args) {
    !(a.domId.Some? && a.ids.Some?)
  }

  /** Python's truth test on an optional integer: None and 0 are false. */
  predicate Truthy(x: Option<int>) {
    x.Some? && x.value != 0
  }

  /** Whom the device node is given to (usb_reset.py:182-185), if anyone. */
  function ChownTarget(a: Args, base: Ids): (owner: Option<Ids>)
    ensures owner.Some? <==> Truthy(a.domId) || a.ids.Some?
    ensures Truthy(a.domId) ==> owner == Some(DomIdToIds(base, a.domId.value))
  {
    if Truthy(a.domId) then Some(DomIdToIds(base, a.domId.value))
    else if a.ids.Some? then a.ids
    else None
  }

  /** `reset_device`, when `-r` is given (usb_reset.py:174-175). */
  function ResetNode(o: Oracle, w: World, a: Args, path: string): (r: Outcome)
    ensures !a.reset ==> r == Running(w)
    ensures r.world.dirs == w.dirs && r.world.mounts == w.mounts && r.world.logs == w.logs && r.world.owners == w.owners
  {
    if a.reset then Try(o, w, Ioctl(path, UsbDevFsReset)) else Running(w)
  }

  /** The chown of the device node, when there is someone to give it to (usb_reset.py:181-189). */
  function ChownNode(o: Oracle, w: World, owner: Option<Ids>, path: string): (r: Outcome)
    ensures owner.None? ==> r == Running(w)
    ensures r.world.dirs == w.dirs && r.world.mounts == w.mounts && r.world.logs == w.logs
  {
    if owner.Some? then Try(o, w, Chown(path, owner.value)) else Running(w)
  }

  /** The steps before the guest root is looked at (usb_reset.py:163-189): check, locate, reset, chown. */
  function Prepare(o: Oracle, w: World, a: Args, base: Ids): (r: Outcome)
    ensures !NameMatches(a.device) ==> r == Exit1(w)
    ensures r.Running? ==>
              && NameMatches(a.device)
              && IntOfFile(o, BusFile(a.device, "busnum")).Some?
              && IntOfFile(o, BusFile(a.device, "devnum")).Some?
  {
    if !NameMatches(a.device) then Exit1(w)
    else
      var w1 :- Locate(o, w, a.device);
      var path := NodePath(o, a.device);
      var w2 :- ResetNode(o, w1, a, path);
      ChownNode(o, w2, ChownTarget(a, base), path)
  }

  /** The whole `__main__` block (usb_reset.py:162-210); `base` is the qemu_base account. */
  function Execute(o: Oracle, w: World, a: Args, base: Ids): (r: Outcome)
    requires ArgsParsed(a)
    ensures !NameMatches(a.device) ==> r == Exit1(w)
  {
    var w1 :- Prepare(o, w, a, base);
    var path := NodePath(o, a.device);
    var root := RootDir(a.domId);
    if root !in w1.dirs || root + "dev/" !in w1.dirs then Exit1(w1)
    else if Truthy(a.pid) then Attach(o, w1, a.domId, a.pid.value, root, path)
    else EditRule(o, w1, a.domId, "devices.deny", path)
  }

  /** The host, changed in place by the script's calls. */
  class HostState {
    const oracle: Oracle
    var dirs: set<string>
    var mounts: seq<Mount>
    var logs: map<string, seq<string>>
    var owners: map<string, Ids>
    var calls: seq<Op>

    function Snapshot(): World
      reads this
    {
      World(dirs, mounts, logs, owners, calls)
    }

    constructor (oracle: Oracle, w: World)
      ensures this.oracle == oracle && Snapshot() == w
    {
      this.oracle := oracle;
      dirs, mounts, logs, owners, calls := w.dirs, w.mounts, w.logs, w.owners, w.calls;
    }

    /** `os.path.isdir` */
    method IsDir(path: string) returns (b: bool)
      ensures b <==> path in Snapshot().dirs
    {
      b := path in dirs;
    }

    /** Issues one call; the host either carries it out or refuses it and nothing changes. */
    method Perform(op: Op) returns (ok: bool)
      modifies this
      ensures ok <==> !Refuses(oracle, old(Snapshot()), op)
      ensures Snapshot() == if ok then old(Snapshot()).Apply(op) else old(Snapshot())
    {
      match op {
        case ReadFile(path) => ok := path in oracle.files;
        case Mkdir(path, _) => ok := path !in dirs && op !in oracle.refused;
        case Write(_, _) => ok := true;
        case _ => ok := op !in oracle.refused;
      }
      if ok {
        match op {
          case ReadFile(_) =>
          case Ioctl(_, _) =>
          case Chown(path, owner) => owners := owners[path := owner];
          case Mkdir(path, _) => dirs := dirs + {path};
          case MountFs(m) =>
            dirs := dirs + MountedDirs(dirs, m);
            mounts := mounts + [m];
          case Write(path, data) =>
            var before := if path in logs then logs[path] else [];
            logs := logs[path := before + [data]];
        }
        calls := calls + [op];
      }
    }

    /** A write to an open control file; the model's kernel accepts every write. */
    method Append(path: string, data: string)
      modifies this
      ensures Snapshot() == old(Snapshot()).Appended(path, data)
    {
      var _ := Perform(Write(path, data));
    }

    /** `read_int` */
    method ReadInt(path: string) returns (value: Option<int>)
      modifies this
      ensures value == IntOfFile(oracle, path)
      ensures Snapshot() == if path in oracle.files then old(Snapshot()).Apply(ReadFile(path)) else old(Snapshot())
    {
      var ok := Perform(ReadFile(path));
      if ok {
        value := ParseInt(FirstLine(oracle.files[path]));
      } else {
        value := None;
      }
    }

    /** `create_and_join_cgroup` */
    method CreateAndJoinCgroup(domId: Option<int>, pid: int) returns (ok: bool)
      modifies this
      ensures ok <==> CreateCgroup(oracle, old(Snapshot()), domId, pid).Running?
      ensures Snapshot() == CreateCgroup(oracle, old(Snapshot()), domId, pid).world
    {
      var cg := CgDir(domId);
      ok := Perform(Mkdir(cg, DirMode));
      if !ok {
        return;
      }
      ghost var made := Snapshot();
      var allow := cg + "devices.allow";
      Append(cg + "devices.deny", DenyAll);
      Append(allow, SmBackendRule);
      AllowEntries(allow, Whitelist);
      Append(cg + "tasks", IntToString(pid));
      assert Snapshot() == SetUpCgroup(made, cg, Rules(oracle.nodes, Whitelist), pid);
    }

    /** The whitelist loop of `create_and_join_cgroup`: one write per entry that is a device node. */
    method AllowEntries(allow: string, entries: seq<(string, string)>)
      requires allow in logs
      modifies this
      ensures Snapshot() == old(Snapshot()).AppendedAll(allow, Rules(oracle.nodes, entries))
    {
      ghost var ready := Snapshot();
      AppendedAllEmpty(ready, allow);
      assert ready.Written(allow) == ready.logs[allow];
      assert ready.logs[allow := ready.Written(allow)] == ready.logs;
      for i := 0 to |entries|
        invariant Snapshot() == ready.AppendedAll(allow, Rules(oracle.nodes, entries[..i]))
      {
        var entry := entries[i];
        var control := DevControl(Stat(oracle.nodes, entry.0), entry.1);
        assert entries[..i + 1][..i] == entries[..i];
        assert Rules(oracle.nodes, entries[..i + 1])
            == Rules(oracle.nodes, entries[..i]) + EntryRules(oracle.nodes, entry);
        if control.None? {
          assert Rules(oracle.nodes, entries[..i + 1]) == Rules(oracle.nodes, entries[..i]);
        } else {
          AppendedAllSnoc(ready, allow, Rules(oracle.nodes, entries[..i]), control.value);
          Append(allow, control.value);
        }
      }
      assert entries[..|entries|] == entries;
    }

    /** `allow_device` and `deny_device`, which differ only in the control file. */
    method WriteRule(domId: Option<int>, file: string, path: string) returns (ok: bool)
      modifies this
      ensures ok <==> EditRule(oracle, old(Snapshot()), domId, file, path).Running?
      ensures Snapshot() == EditRule(oracle, old(Snapshot()), domId, file, path).world
    {
      var cg := CgDir(domId);
      ok := IsDir(cg);
      if !ok {
        return;
      }
      var control := DevControl(Stat(oracle.nodes, path), "rw");
      if control.Some? {
        Append(cg + file, control.value);
      }
    }

    method AllowDevice(domId: Option<int>, path: string) returns (ok: bool)
      modifies this
      ensures ok <==> EditRule(oracle, old(Snapshot()), domId, "devices.allow", path).Running?
      ensures Snapshot() == EditRule(oracle, old(Snapshot()), domId, "devices.allow", path).world
    {
      ok := WriteRule(domId, "devices.allow", path);
    }

    method DenyDevice(domId: Option<int>, path: string) returns (ok: bool)
      modifies this
      ensures ok <==> EditRule(oracle, old(Snapshot()), domId, "devices.deny", path).Running?
      ensures Snapshot() == EditRule(oracle, old(Snapshot()), domId, "devices.deny", path).world
    {
      ok := WriteRule(domId, "devices.deny", path);
    }

    /** The attach branch of `__main__` */
    method AttachDevice(domId: Option<int>, pid: int, root: string, path: string) returns (ok: bool)
      modifies this
      ensures ok <==> Attach(oracle, old(Snapshot()), domId, pid, root, path).Running?
      ensures Snapshot() == Attach(oracle, old(Snapshot()), domId, pid, root, path).world
    {
      var hasBus := IsDir(root + "dev/bus/");
      if !hasBus {
        ok := Perform(MountFs(Bind("/dev", root + "dev/")));
        if !ok {
          return;
        }
        ok := CreateAndJoinCgroup(domId, pid);
        if !ok {
          return;
        }
      }
      var hasSys := IsDir(root + "sys/");
      if !hasSys {
        ok := Perform(Mkdir(root + "sys/", DirMode));
        if !ok {
          return;
        }
        ok := Perform(MountFs(Sysfs(root + "sys/")));
        if !ok {
          return;
        }
      }
      ok := AllowDevice(domId, path);
    }

    /** The `__main__` block; returns the exit status. */
    method Run(a: Args, base: Ids) returns (status: int)
      requires ArgsParsed(a)
      modifies this
      ensures status == ExitCode(Execute(oracle, old(Snapshot()), a, base))
      ensures Snapshot() == Execute(oracle, old(Snapshot()), a, base).world
    {
      status := 1;
      if !NameMatches(a.device) {
        return;
      }
      var bus := ReadInt(BusFile(a.device, "busnum"));
      if bus.None? {
        return;
      }
      var dev := ReadInt(BusFile(a.device, "devnum"));
      if dev.None? {
        return;
      }
      var path := DevPath(bus.value, dev.value);
      if a.reset {
        var ok := Perform(Ioctl(path, UsbDevFsReset));
        if !ok {
          return;
        }
      }
      var owner := ChownTarget(a, base);
      if owner.Some? {
        var ok := Perform(Chown(path, owner.value));
        if !ok {
          return;
        }
      }
      var root := RootDir(a.domId);
      var hasRoot := IsDir(root);
      var hasDev := IsDir(root + "dev/");
      if !hasRoot || !hasDev {
        return;
      }
      var ok;
      if Truthy(a.pid) {
        ok := AttachDevice(a.domId, a.pid.value, root, path);
      } else {
        ok := DenyDevice(a.domId, path);
      }
      status := if ok then 0 else 1;
    }
  }
}
