# usb_reset.py, modelled in Dafny

`scripts/usb_reset.py` is a privileged one-shot Python 2 script. It passes a
USB device through to a guest's QEMU process:

- It checks the device name (`<bus>-<port>[.<port>]*`).
- It reads the device's bus and device numbers from sysfs and builds the
  `/dev/bus/usb/BBB/DDD` node path.
- It resets the node with the `USBDEVFS_RESET` ioctl when `-r` is given.
- It gives the node to the guest's account (`-d <dom_id>`) or to an explicit
  uid/gid pair (`-i`).
- It then either attaches or detaches the device:
  - **Attach** (`-p <pid>`): on the guest's first device, bind-mount `/dev`
    into the guest's chroot and create the guest's device cgroup. The cgroup
    denies everything except the storage backend and a fixed whitelist, and the
    QEMU pid joins it. Then mount sysfs in the chroot if it is missing. Finally,
    write the device's allow rule.
  - **Detach**: write the device's deny rule.

The project has six files:

| file | module | contents |
|---|---|---|
| `options.dfy` | `Options` | Python's `None`-or-value, as `Option`. |
| `decimal.dfy` | `Decimal` | `str(n)`, the `"{0:03d}"` format, and `int(f.readline())`, with their read-back and injectivity lemmas. |
| `device_names.dfy` | `DeviceNames` | The name check `^\d+-\d+(\.\d+)*$`. A declarative grammar and a five-state scanner, proved equivalent. Python's `$` also matches before one final newline. |
| `usb_reset.dfy` | `UsbReset` | The pure helpers: `_IO('U', 20)`, `dev_path`, `domid_to_ids`, `get_dev_control`, `get_cg_dir`, the chroot directory, and the whitelist rules. |
| `host.dfy` | `Host` | The host and the script's steps (see below). |
| `properties.dfy` | `Properties` | What the script promises about its effects on the host. |

In `host.dfy`, the host is split into two parts:

- **Oracle**: what the host answers and never changes during a run:
  - what `os.stat` reports for a path;
  - the contents of the readable sysfs files;
  - the calls the kernel refuses.
- **World**: what the script changes:
  - the set of directories;
  - the mount table;
  - the lines written to each cgroup control file;
  - the owner of each device node;
  - the ordered record of the calls that took effect.

`host.dfy` defines three things on top of this:

- **Specification functions** (`CreateCgroup`, `EditRule`, `Attach`, `Prepare`, `Execute`). Each gives the World a step ends in, wrapped in an `Outcome`: `Running`, or `Exit1` for every `exit(1)` and every exception the script lets escape.
- **Class `HostState`**. It performs the same steps one call at a time, on mutable fields. Each method is proved to end in exactly the World and exit status its specification function gives.
- **The whitelist loop** of `create_and_join_cgroup`. It is the `for` loop of `HostState.AllowEntries`, whose invariant ties it to `Rules`.

The model keeps these behaviours of the Python code:

- `dom_id` is `None` in `-i` mode. The cgroup and chroot directories then contain the text `None`.
- So in `-i` mode the chroot is `/var/xen/qemu/None/`. Unless that directory and its `dev/` exist, the run exits 1 right after the chown, and a detach never writes its deny rule (`MissingRootStops`).
- `-d 0` and `-p 0` are false in Python's truth tests:
  - `-d 0` makes no chown at all;
  - `-p 0` detaches.
- `"{0:03d}"` pads to at least three characters and never truncates. For a negative number the sign counts towards the width.
- `\d` is `[0-9]`, and `$` also accepts a name that ends in one newline.

In the table below, a **fresh guest** is one whose chroot has no `dev/bus/` and no `sys/`, and that has no cgroup directory yet.

## Model

| member | source | states |
|---|---|---|
| Decimal.NatToString | scripts/usb_reset.py:95-96 | `str(n)` of a non-negative number is a non-empty digit string that denotes `n`, is "0" exactly for 0, and has no leading zero. |
| Decimal.IntToString | scripts/usb_reset.py:136 | `str(n)` is non-empty; it is all digits iff `n >= 0` and starts with '-' iff `n < 0`. |
| Decimal.IntToStringInjective | scripts/usb_reset.py:101 | Distinct integers have distinct `str()` texts. |
| Decimal.Format03dReadsBack | scripts/usb_reset.py:71 | For a non-negative number, `{:03d}` is all digits and exactly max(3, digits of `n`) long. It is `str(n)` after zeros only, and denotes `n` again. |
| Decimal.Format03d | scripts/usb_reset.py:71 | `"{0:03d}"`: zero-padded to three characters, never truncated, the sign counting towards the width. Its lemmas are `Format03dReadsBack` and `Format03dNegative`. |
| Decimal.Format03dNegative | scripts/usb_reset.py:71 | For a negative number the text is '-' and then digits denoting `-n`. It is max(3, 1 + digits of `-n`) long. |
| Decimal.ExampleFormat03d | scripts/usb_reset.py:71 | 7 is "007", 1234 is "1234", -5 is "-05" and -123 is "-123". |
| Decimal.FirstLine | scripts/usb_reset.py:67 | `readline()` gives a prefix of the file's contents. With no newline it is the whole text. Otherwise it ends at the first newline, which it includes. |
| Decimal.ParseInt | scripts/usb_reset.py:67 | `int()` of a line. A line with no digit is refused, and a negative result needs a '-' in the line. `ParseIntAccepts` and `ParseIntSound` give the exact accepted set. |
| Decimal.ParseIntAccepts | scripts/usb_reset.py:67 | Every line made of blanks, an optional sign, blanks only after a sign, at least one digit, and blanks is accepted. Its value is the digits' value, negated for '-'. |
| Decimal.ParseIntSound | scripts/usb_reset.py:67 | Every accepted line splits into exactly those parts, and the value is theirs, so junk after the digits or a second number is a `ValueError`. |
| Decimal.ParseNumber | scripts/usb_reset.py:67 | The trimmed text of a line: an optional sign, blanks after it, then digits only. Text with no digit is refused, and a negative value needs a leading '-'. |
| Decimal.ExampleParse | scripts/usb_reset.py:67 | " 12\n" is 12 and "- 5\n" is -5, since Python 2 allows blanks after the sign. "\n", "-\n" and "1 2\n" are refused. |
| Decimal.IntReadsBack | scripts/usb_reset.py:65-67 | A file whose first line is `str(n)` and a newline reads back as `n`, whatever follows. |
| Decimal.ParseNumberLine | scripts/usb_reset.py:67 | `int(str(n) + "\n")` is `n` for every integer, negative ones included. |
| DeviceNames.ScanPort | scripts/usb_reset.py:164 | From inside a port number, the scanner accepts exactly the `(\.\d+)*` tails. |
| DeviceNames.ScanNeedDigit | scripts/usb_reset.py:164 | After a dash or a dot, the scanner accepts exactly the `\d+(\.\d+)*` strings. |
| DeviceNames.ScanBus | scripts/usb_reset.py:164 | After the first bus digit, the scanner accepts exactly `\d*-\d+(\.\d+)*`. |
| DeviceNames.RecognisesDeviceName | scripts/usb_reset.py:164 | The scanner accepts a string iff it is in the grammar `\d+-\d+(\.\d+)*`. |
| DeviceNames.NameMatchesPattern | scripts/usb_reset.py:164-165 | The script's check accepts exactly what `re.match` with the anchored pattern accepts, optional final newline included. |
| DeviceNames.AcceptedNameAlphabet | scripts/usb_reset.py:164-171 | An accepted name holds only digits, '-' and '.', plus at most one final newline. In particular it has no '/', so the sysfs paths built from it stay in the device's directory. |
| DeviceNames.ExampleNames | scripts/usb_reset.py:164-165 | "2-2", "1-1.4.2" and "2-2\n" are accepted. "2-", "-2", "2-2.", "2-2..1", "a-1" and "2-2/.." are refused. |
| UsbReset.Io | scripts/usb_reset.py:45-46 | `_IO(type, nr)` puts the type in bits 8-15 and the number in bits 0-7. |
| UsbReset.ExampleIoctl | scripts/usb_reset.py:45-46 | USBDEVFS_RESET is 0x5514. |
| UsbReset.DevPath | scripts/usb_reset.py:70-71 | A node path starts with "/dev/bus/usb/" and is at least as long as "/dev/bus/usb/000/000". |
| UsbReset.DevPathLayout | scripts/usb_reset.py:70-71 | For non-negative numbers, `dev_path` is "/dev/bus/usb/", the zero-padded bus, "/", and the zero-padded device. |
| UsbReset.DevPathInjective | scripts/usb_reset.py:70-71 | Distinct non-negative (bus, device) pairs give distinct node paths. |
| UsbReset.ExampleDevPath | scripts/usb_reset.py:70-71 | Bus 2, device 5 is "/dev/bus/usb/002/005". |
| UsbReset.DomIdToIds | scripts/usb_reset.py:79-81 | The uid and the gid are each the `qemu_base` one plus the domain id, so their difference is kept. |
| UsbReset.DevControl | scripts/usb_reset.py:84-97 | A rule exists iff the node is a block or character device and the mode is "r" or "rw". It starts with 'b' for block (checked first), else 'c', then a space, and ends with " " + mode. `DevControlReadsBack` gives the major and minor. |
| UsbReset.DevControlReadsBack | scripts/usb_reset.py:94-96 | A rule splits back into "b " or "c ", then the major's digits, then ':' and the minor's digits, then a space and the mode. |
| UsbReset.DevControlDetermines | scripts/usb_reset.py:94-96 | A rule line determines the device kind, major, minor and mode it was built from. |
| UsbReset.ExampleRules | scripts/usb_reset.py:84-97 | Character device 189:4 with "rw" gives "c 189:4 rw". A non-device node, or mode "w", gives None. |
| UsbReset.CgDir | scripts/usb_reset.py:100-101 | A cgroup directory is "/sys/fs/cgroup/devices/qemu-", a non-empty id text, and a final '/'. |
| UsbReset.RootDir | scripts/usb_reset.py:191 | A chroot directory is "/var/xen/qemu/", a non-empty id text, and a final '/'. |
| UsbReset.DomIdText | scripts/usb_reset.py:101 | `"{}".format(dom_id)` is non-empty. It is "None" without a domain id and `str(d)` otherwise. `DomIdTextInjective` shows distinct ids give distinct texts. |
| UsbReset.DomIdTextInjective | scripts/usb_reset.py:191 | Distinct domain ids, "None" included, have distinct texts. |
| UsbReset.GuestDirsDistinct | scripts/usb_reset.py:100-101 | Distinct guests (the `None` guest included) get distinct cgroup directories and distinct chroot directories. |
| UsbReset.ExampleGuest | scripts/usb_reset.py:100-101 | Guest 12 with base ids 1000/1000 gets ids 1012/1012 and "/sys/fs/cgroup/devices/qemu-12/". With no domain id the cgroup is "qemu-None/". |
| UsbReset.RulesAppend | scripts/usb_reset.py:131-134 | The whitelist rules of a concatenation are the rules of the first part, then those of the second: list order is kept. |
| UsbReset.EntryRules | scripts/usb_reset.py:132-134 | One whitelist entry writes its `get_dev_control` rule, or nothing when that is None. `RulesSound` and `RulesComplete` characterise it. |
| UsbReset.Rules | scripts/usb_reset.py:131-134 | The lines the whitelist loop writes, in list order. `RulesAppend`, `RulesSound`, `RulesComplete` and `RulesCount` characterise them. |
| UsbReset.RulesSound | scripts/usb_reset.py:131-134 | Every rule written comes from some whitelist entry's `get_dev_control`. |
| UsbReset.RulesComplete | scripts/usb_reset.py:131-134 | Every entry that yields a rule contributes it. |
| UsbReset.RulesCount | scripts/usb_reset.py:131-134 | There is at most one rule per entry, and exactly one each iff every entry yields a rule. |
| UsbReset.WhitelistRuleIffDevice | scripts/usb_reset.py:118-134 | Every whitelist mode is accepted, so an entry yields a rule iff its path is a block or character device. |
| Host.Refuses | scripts/usb_reset.py:65-205 | When a call fails. A read fails iff the file is missing (line 66). A mkdir fails iff the directory exists or the host refuses it (lines 107, 204). A write never fails. Any other call fails iff the host refuses it. `Try` turns this into exit 1. |
| Host.World.Apply | scripts/usb_reset.py:104-205 | What a successful call changes. A chown sets the node's owner, a mkdir adds the directory, a mount adds the mount and the directories it shows, and a write appends to the file's log. Every call is recorded last. `ApplyKeepsLogs` states this for the non-write calls. |
| Host.MountedDirs | scripts/usb_reset.py:200 | A bind of `source` on `target` shows each directory under `source/` at the same place under `target`. The sysfs mount adds none. `BindShowsBus`, `BindMountScope` and `MountedDirsUnder` characterise it. |
| Host.Try | scripts/usb_reset.py:138-140 | A call exits 1 iff the host refuses it, and then changes nothing. Otherwise it is recorded after the earlier calls. |
| Host.IntOfFile | scripts/usb_reset.py:65-67 | A missing file gives None, as the `IOError` it raises is caught. |
| Host.Locate | scripts/usb_reset.py:169-179 | Locating continues iff both `busnum` and `devnum` exist and hold integers. |
| Host.ResetNode | scripts/usb_reset.py:174-175 | Without `-r` nothing happens. The reset never changes directories, mounts, control files or owners. |
| Host.ChownTarget | scripts/usb_reset.py:182-185 | There is an owner iff `dom_id` is truthy or `-i` was given. A truthy `dom_id` gives the guest account's ids. |
| Host.ChownNode | scripts/usb_reset.py:181-189 | With no owner nothing happens. The chown never changes directories, mounts or control files. |
| Host.Truthy | scripts/usb_reset.py:182-197 | Python's truth test on `-d` and `-p`: an absent value or 0 is false. So `-d 0` chowns to nobody (`ChownTargetCases`) and `-p 0` detaches. |
| Host.CreateCgroup | scripts/usb_reset.py:104-140 | A failure changes nothing. Success needs the directory to be new, and adds only that directory. Mounts and owners are kept. |
| Host.SetUpCgroup | scripts/usb_reset.py:112-136 | The cgroup writes keep directories, mounts and owners. |
| Host.EditRule | scripts/usb_reset.py:143-156 | `allow_device` and `deny_device` exit 1 iff the cgroup directory is missing, and then change nothing. Directories, mounts and owners are kept. |
| Host.BusStep | scripts/usb_reset.py:198-201 | With the guest's `dev/bus/` present it does nothing. It only adds directories, keeps owners, and a failure writes nothing. |
| Host.FirstAttach | scripts/usb_reset.py:199-201 | The bind mount and then `create_and_join_cgroup`. When it succeeds, `FirstAttachEffect` gives its one mount and its calls, and `sys/` is untouched. |
| Host.MountSys | scripts/usb_reset.py:204-205 | The `sys/` mkdir and then the sysfs mount. With `sys/` absent and neither call refused, `MountSysFresh` gives one mount and no write. |
| Host.SysStep | scripts/usb_reset.py:203-205 | With the guest's `sys/` present it does nothing. It only adds directories and writes nothing. On success `sys/` exists. |
| Host.Attach | scripts/usb_reset.py:197-207 | Attach only adds directories and changes no owner. |
| Host.Prepare | scripts/usb_reset.py:163-189 | A non-matching name exits 1 with the host untouched. Continuing implies that the name matched and that both bus files parsed. |
| Host.Execute | scripts/usb_reset.py:159-210 | A non-matching name exits 1 with the host untouched. |
| Host.HostState.IsDir | scripts/usb_reset.py:192 | `os.path.isdir` is membership in the current directory set. |
| Host.HostState.Perform | scripts/usb_reset.py:198-205 | An issued call is carried out iff the host does not refuse it. The new state is the call's effect, or the old state. |
| Host.HostState.Append | scripts/usb_reset.py:113 | A write adds the line at the end of that control file's log. |
| Host.HostState.ReadInt | scripts/usb_reset.py:65-67 | `read_int` gives the parsed first line, or None. The read is recorded only when the file exists. |
| Host.HostState.CreateAndJoinCgroup | scripts/usb_reset.py:104-140 | Ends in exactly the World of `CreateCgroup`, and succeeds iff it does. |
| Host.HostState.AllowEntries | scripts/usb_reset.py:131-134 | The whitelist loop appends to `devices.allow` exactly `Rules` of the entries, in order. |
| Host.HostState.WriteRule | scripts/usb_reset.py:143-156 | Ends in exactly the World of `EditRule`, and succeeds iff it does. |
| Host.HostState.AllowDevice | scripts/usb_reset.py:143-148 | The same as `WriteRule`, on "devices.allow". |
| Host.HostState.DenyDevice | scripts/usb_reset.py:151-156 | The same as `WriteRule`, on "devices.deny". |
| Host.HostState.AttachDevice | scripts/usb_reset.py:197-207 | Ends in exactly the World of `Attach`, and succeeds iff it does. |
| Host.HostState.Run | scripts/usb_reset.py:159-210 | The exit status and the final host are exactly those of `Execute`. |
| Properties.DeviceRule | scripts/usb_reset.py:146-148 | `allow_device` and `deny_device` write at most one line, and one iff the node is a block or character device. |
| Properties.SetUpCgroupWritten | scripts/usb_reset.py:112-136 | Setting up a cgroup adds "a" to devices.deny; "b 254:* rw" and then the rules to devices.allow; and the pid to tasks. |
| Properties.SetUpCgroupCalls | scripts/usb_reset.py:112-136 | The set-up only writes: directories, mounts and owners are kept, and the calls are the writes in that order. |
| Properties.CreateCgroupShape | scripts/usb_reset.py:104-140 | `create_and_join_cgroup` exits 1 iff the directory exists or its mkdir is refused, and then changes nothing. Otherwise it is the mkdir and then the set-up, adding only that directory. |
| Properties.CreateCgroupWrites | scripts/usb_reset.py:104-140 | A successful `create_and_join_cgroup` leaves every file as `CgWritten` says. The calls are the mkdir and then the deny, allow and tasks writes. |
| Properties.CgWrittenFiles | scripts/usb_reset.py:112-136 | Only the three control files change: "a" is the one deny line, allow gets the backend rule and the rules in order, and tasks gets the pid. |
| Properties.EditRuleEffect | scripts/usb_reset.py:143-156 | On success only the one file gets the node's "rw" rule, if any, and the calls are that write. |
| Properties.LocateEffect | scripts/usb_reset.py:169-171 | Reading the bus files changes nothing but the record of reads. On success the record is the two reads, in order. |
| Properties.ResetEffect | scripts/usb_reset.py:174-175 | The reset happens only with `-r`. It is one ioctl on the node, and a refused reset exits 1 with nothing changed. |
| Properties.ChownEffect | scripts/usb_reset.py:181-189 | The chown is one call giving the node to the owner, or nothing. A refused chown exits 1 with nothing changed. |
| Properties.PrepareEffect | scripts/usb_reset.py:169-189 | The steps before the root check create, mount and write nothing. On success the calls are the two reads, then the reset if any, then the chown if any. Only the chown changes an owner. |
| Properties.PrepareSucceeds | scripts/usb_reset.py:163-189 | Those steps succeed iff the name matches, both bus files parse, and neither the reset (if asked for) nor the chown (if any) is refused. |
| Properties.InvalidNameTouchesNothing | scripts/usb_reset.py:164-167 | A name outside the pattern exits 1 with the host exactly as it was: no read, reset, chown, mount or write. |
| Properties.LocateOrResetFailureStops | scripts/usb_reset.py:169-179 | A missing or unparsable bus file, or a refused reset, exits 1 before any chown, mount, mkdir or write. |
| Properties.ChownTargetCases | scripts/usb_reset.py:182-185 | A nonzero `-d` chowns to the guest account, and `-d 0` chowns to nobody. Without `-d`, the pair given with `-i` is used, if any. |
| Properties.MissingRootStops | scripts/usb_reset.py:191-194 | A missing chroot or chroot `dev/` exits 1 after the chown, with no mount, mkdir or write. |
| Properties.DetachEffect | scripts/usb_reset.py:209-210 | Detach adds at most one rule, to devices.deny, and no mount or directory. |
| Properties.AttachWhenSetUp | scripts/usb_reset.py:197-207 | With `dev/bus/` and `sys/` present, attach is just `allow_device`. |
| Properties.AttachSetUpGuest | scripts/usb_reset.py:197-207 | With `-p` given and nonzero, the steps before the chroot check succeeding (no refused reset or chown), and the chroot, its `dev/`, `dev/bus/`, `sys/` and the cgroup directory all present: the run succeeds, mounts and creates nothing, and adds only the device's allow rule. |
| Properties.BusStepDirs | scripts/usb_reset.py:198-201 | Given the host's `/dev/bus/` exists: the first guarded step only adds directories, and on success leaves the guest's `dev/bus/` present. |
| Properties.BusStepEffect | scripts/usb_reset.py:198-201 | A successful first step adds the bind mount, the cgroup mkdir and its writes iff the guest's `dev/bus/` was absent, and nothing otherwise. `sys/` is untouched. |
| Properties.FirstAttachEffect | scripts/usb_reset.py:199-201 | A successful first attach adds one mount, the bind of `/dev`, and the calls bind, mkdir, cgroup writes. `sys/` is untouched. |
| Properties.FirstAttachCalls | scripts/usb_reset.py:199-201 | When a first attach succeeds, its calls are the bind mount, the cgroup mkdir and the cgroup writes, in order. |
| Properties.CreateCgroupCalls | scripts/usb_reset.py:104-136 | When `create_and_join_cgroup` succeeds, its calls are the mkdir, then the deny, allow and tasks writes. |
| Properties.SysStepEffect | scripts/usb_reset.py:203-205 | A successful second step adds the `sys/` mkdir and the sysfs mount iff the guest's `sys/` was absent, and nothing otherwise. |
| Properties.AttachStageWorlds | scripts/usb_reset.py:197-207 | A successful attach adds the mounts and calls of both guarded steps, then the allow write. |
| Properties.AttachGuards | scripts/usb_reset.py:197-207 | A successful attach mounts `/dev` iff `dev/bus/` was absent and sysfs iff `sys/` was absent. Its new calls are both steps' calls, then the allow rule last. Among them is the cgroup mkdir iff `dev/bus/` was absent. |
| Properties.AttachLeavesSetUp | scripts/usb_reset.py:197-207 | Given the host's `/dev/bus/` exists: after a successful attach, the guest's `dev/bus/`, `sys/` and cgroup directory exist, and no directory was lost. |
| Properties.SecondAttachOnlyAllows | scripts/usb_reset.py:197-207 | Given the host's `/dev/bus/` exists: after one successful attach, the same attach again succeeds, mounts and creates nothing, and adds only the allow rule. |
| Properties.BindShowsBus | scripts/usb_reset.py:200 | Bind-mounting `/dev` shows the host's `bus/` in the guest's `dev/`. |
| Properties.BindMountScope | scripts/usb_reset.py:200 | That bind mount shows neither the guest's cgroup directory nor its `sys/`. |
| Properties.MountedDirsUnder | scripts/usb_reset.py:200 | Every directory a bind mount shows lies under its target. |
| Properties.MountSysFresh | scripts/usb_reset.py:203-205 | With `sys/` absent and neither call refused, `sys/` is made and sysfs is mounted there: one mount and no write. |
| Properties.FreshAttachStages | scripts/usb_reset.py:198-205 | On a fresh guest, given that the host has `/dev/bus/`, and none of the bind mount, the cgroup mkdir, the `sys/` mkdir or the sysfs mount is refused: the first-attach branch and the sysfs branch both run and succeed. |
| Properties.FreshAttachOrder | scripts/usb_reset.py:197-207 | On a fresh guest, given that the host has `/dev/bus/`, and none of the bind mount, the cgroup mkdir, the `sys/` mkdir or the sysfs mount is refused: attach succeeds and gives, in this order, the bind mount, the cgroup mkdir and its writes, the `sys/` mkdir, the sysfs mount, and the allow rule. The two mounts are the only ones added. |
| Properties.FreshAttachWritten | scripts/usb_reset.py:197-207 | Under the same conditions, after that first attach each file holds its cgroup set-up, and devices.allow also ends with the device's rule. |
| Properties.FreshAttachWrites | scripts/usb_reset.py:104-148 | Under the same conditions, after that first attach devices.deny gains only "a"; devices.allow gains "b 254:* rw", the whitelist rules and the device's rule; tasks gains the pid. |
| Properties.FirstAttachOrder | scripts/usb_reset.py:191-207 | With `-p` given and nonzero, and the host's `/dev/bus/` present. The steps before the chroot check succeed, the chroot and its `dev/` exist, and the guest is fresh. None of the bind mount, the cgroup mkdir, the `sys/` mkdir or the sysfs mount is refused. Then the run is `Attach` after those steps, succeeds, and adds exactly the bind and sysfs mounts. |

## Left out

- Argument parsing:
  - `argparse` is not modelled; the parsed arguments are the `Args` record.
  - The `-d`/`-i` mutual exclusion is the `ArgsParsed` precondition.
  - `-i` always gives two numbers, so the `len(arg.id) == 2` test holds whenever `-i` is given.
- Syslog logging and traceback formatting are not modelled; they are diagnostics only.
- Operating-system calls:
  - `os.stat`, `fcntl.ioctl`, `os.chown`, `os.mkdir` and the `/usr/bin/mount` subprocess are oracle answers: each is carried out or refused.
  - The reasons for a refusal are not modelled.
- Host.ChownNode: `os.chown` treats an id of -1 as "leave unchanged". The model does not: a chown records the two ids as given, so `-i -1 -1` is recorded as owner (-1, -1).
- The `qemu_base` account: the `pwd`/`grp` lookups are replaced by the `base` ids parameter.
- The regex engine is not modelled. The pattern is a grammar and a scanner.
- Exceptions:
  - There is no `IOError`/`OSError`/`ValueError` distinction in the model. Every failure, caught or not, ends in `Exit1`, because CPython also exits with status 1 on an uncaught exception.
  - A refused call is not recorded in `calls`.
- Writes to control files never fail in the model:
  - Opening a control file fails iff the cgroup directory is missing.
  - The kernel's own checks on rule text are not modelled.
  - Opening with mode "w" is an append to the file's log, which is how cgroup control files behave.
- Kernel cgroup semantics are not modelled: the model records what is written, not which device accesses are then allowed.
- Bind and sysfs mounts:
  - A bind mount is modelled by the directories it makes visible under its target.
  - What it hides under the old target, and the sysfs tree itself, are not modelled.
- Concurrency is not modelled: two runs racing on one guest, and the check-then-create gaps between `isdir` and `mkdir`/`mount`.
- The file system outside the modelled sets is not modelled. Only directories, mounts, control-file logs and node owners are state.
