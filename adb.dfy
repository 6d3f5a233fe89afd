/**
 * The `ADB` helper: listing the connected devices and their architectures, installing and
 * starting the app, finding its process, and reformatting its log. Every step is a run of
 * the `adb` binary whose answer is an input; what is modelled is how the tool reads those
 * answers.
 */
module Adb {
  import opened Wrappers
  import opened Strings
  import opened Host
  import opened Archs

  /** `ADB.Device`: a connected device as the tool lists it. */
  datatype Device = Device(id: string, archs: seq<Arch>, model: string, device: string, isEmulator: bool)
  {
    /** `arch`: the first architecture, force-unwrapped in the source. */
    function PrimaryArch(): Arch
      requires archs != []
    {
      archs[0]
    }
  }

  function DevicesCommand(adb: string): seq<string> {
    [adb, "devices", "-l"]
  }

  function ArchsCommand(adb: string, id: string): seq<string> {
    [adb, "-s", id, "shell", "getprop", "ro.vendor.product.cpu.abilist"]
  }

  function InstallCommand(adb: string, id: string, apk: string): seq<string> {
    [adb, "-s", id, "install", apk]
  }

  function StartCommand(adb: string, id: string, intent: string): seq<string> {
    [adb, "-s", id, "shell", "am", "start", "-n", intent]
  }

  /** The pid query goes through `sh -c`, with the command line as one string. */
  function PidsCommand(sh: string, adb: string, id: string, appId: string): seq<string> {
    [sh, "-c", adb + " -s " + id + " shell pidof -s " + appId]
  }

  function KillCommand(adb: string, id: string, appId: string): seq<string> {
    [adb, "-s", id, "shell", "am", "force-stop", appId]
  }

  function LogcatCommand(adb: string, id: string, pid: string): seq<string> {
    [adb, "-s", id, "logcat", "--pid", pid]
  }

  // ---------------------------------------------------------------- architectures

  /** `compactMap { Arch.fromAndroid($0) }`: the known ABI names, in order; the rest are dropped. */
  function KnownArchs(names: seq<string>): (r: seq<Arch>)
    ensures |r| <= |names|
    ensures forall a | a in r :: Android(a) in names
    ensures forall n | n in names && n in AbiNames :: FromAndroid(n).value in r
  {
    if names == [] then []
    else
      assert forall n | n in names :: n == names[0] || n in names[1..];
      match FromAndroid(names[0])
      case Some(a) => [a] + KnownArchs(names[1..])
      case None => KnownArchs(names[1..])
  }

  /** How `deviceArchs` reads the ABI list property: trimmed, cut at ',' and looked up. */
  function ParseArchs(out: string): seq<Arch> {
    KnownArchs(Split(Trim(out, WhitespacesAndNewlines), ","))
  }

  /** `deviceArchs(id:)`: a failed query is fatal. */
  method DeviceArchs(m: Machine, adb: string, id: string) returns (st: Status, archs: seq<Arch>)
    modifies m
    ensures var r := m.exec(ArchsCommand(adb, id));
      (st.Ok? <==> r.status == 0) && (!st.Ok? ==> st.Fatal?) &&
      archs == (if st.Ok? then ParseArchs(r.Stdout()) else [])
    ensures m.files == old(m.files) && m.trace == old(m.trace) + [Ran(ArchsCommand(adb, id))]
  {
    var r := m.Run(ArchsCommand(adb, id));
    if r.status != 0 {
      return Fatal("\U{26D4}\U{FE0F} Unable to get device " + id + " archs: " + r.stderr), [];
    }
    st := Ok;
    archs := ParseArchs(r.Stdout());
  }

  // ---------------------------------------------------------------- the device list

  /** What separates a device's serial from its columns. */
  const StateSeparator: string := " device "

  /** The first `compactMap` of `devicesList`: the lines mentioning the `device` state. */
  function DeviceLines(lines: seq<string>): (r: seq<string>)
    ensures |r| <= |lines|
    ensures forall l | l in r :: l in lines && Contains(l, StateSeparator)
    ensures forall l | l in lines && Contains(l, StateSeparator) :: l in r
  {
    if lines == [] then []
    else
      assert forall l | l in lines :: l == lines[0] || l in lines[1..];
      (if Contains(lines[0], StateSeparator) then [lines[0]] else []) + DeviceLines(lines[1..])
  }

  /** The serial side and the column side of a line, when ` device ` occurs in it exactly once. */
  function Sides(line: string): (r: Option<seq<string>>)
    ensures r.Some? ==> |r.value| == 2
  {
    var a := Split(line, StateSeparator);
    if |a| == 2 then Some(a) else None
  }

  /** Where the model column is: emulators have no leading `usb:` column. */
  function ModelColumn(isEmulator: bool): nat {
    if isEmulator then 1 else 2
  }

  /** The value of a `key:value` column: its second ':'-separated field. */
  function Value(column: string): string
    requires |Split(column, ":")| > 1
  {
    Split(column, ":")[1]
  }

  /** The columns the device loop indexes exist, and each has a value after ':'. */
  predicate ColumnsReadable(id: string, right: string) {
    var c := Split(right, " ");
    var col := ModelColumn(Contains(id, "emulator"));
    col + 1 < |c| && |Split(c[col], ":")| > 1 && |Split(c[col + 1], ":")| > 1
  }

  /** The loop body of `devicesList` does not trap on this line. */
  predicate LineReadable(line: string) {
    match Sides(line)
    case None => true
    case Some(a) => ColumnsReadable(Trim(a[0], WhitespacesAndNewlines), a[1])
  }

  /** The listing's lines that the loop can read without trapping. */
  predicate ListingReadable(r: ProcessResult) {
    r.status == 0 ==> forall l | l in DeviceLines(Split(r.Stdout(), "\n")) :: LineReadable(l)
  }

  /** One device from the two sides of its line and the architectures queried for it. */
  function ReadDevice(left: string, right: string, archs: seq<Arch>): (d: Device)
    requires ColumnsReadable(Trim(left, WhitespacesAndNewlines), right)
    ensures d.archs == archs && (d.isEmulator <==> Contains(d.id, "emulator"))
  {
    var id := Trim(left, WhitespacesAndNewlines);
    var isEmulator := Contains(id, "emulator");
    var c := Split(right, " ");
    Device(id, archs, Value(c[ModelColumn(isEmulator)]), Value(c[ModelColumn(isEmulator) + 1]), isEmulator)
  }

  /** Where the device loop stands: the devices found, or `None` once an architecture query
      failed, and every action performed so far. */
  datatype Listing = Listing(devices: Option<seq<Device>>, actions: seq<Action>)

  /** The `forEach` of `devicesList` from line `i` on, having found `found` after `done`. */
  function ListFrom(exec: seq<string> -> ProcessResult, adb: string, lines: seq<string>, i: nat,
                    found: seq<Device>, done: seq<Action>): Listing
    requires i <= |lines| && forall k | i <= k < |lines| :: LineReadable(lines[k])
    decreases |lines| - i
  {
    if i == |lines| then Listing(Some(found), done)
    else
      match Sides(lines[i])
      case None => ListFrom(exec, adb, lines, i + 1, found, done)
      case Some(a) =>
        assert LineReadable(lines[i]);
        var id := Trim(a[0], WhitespacesAndNewlines);
        assert ColumnsReadable(id, a[1]);
        var q := exec(ArchsCommand(adb, id));
        var done' := done + [Ran(ArchsCommand(adb, id))];
        if q.status != 0 then Listing(None, done')
        else ListFrom(exec, adb, lines, i + 1, found + [ReadDevice(a[0], a[1], ParseArchs(q.Stdout()))], done')
  }

  /** `devicesList()`: lists the devices, then queries each one's architectures. */
  method DevicesList(m: Machine, adb: string) returns (st: Status, devices: seq<Device>)
    requires ListingReadable(m.exec(DevicesCommand(adb)))
    modifies m
    ensures m.files == old(m.files) && (st.Ok? || st.Fatal?)
    ensures var r := m.exec(DevicesCommand(adb));
            var start := old(m.trace) + [Ran(DevicesCommand(adb))];
      if r.status != 0 then st.Fatal? && devices == [] && m.trace == start
      else
        var l := ListFrom(m.exec, adb, DeviceLines(Split(r.Stdout(), "\n")), 0, [], start);
        (st.Ok? <==> l.devices.Some?) && devices == l.devices.GetOr([]) && m.trace == l.actions
  {
    var r := m.Run(DevicesCommand(adb));
    if r.status != 0 {
      return Fatal("\U{26D4}\U{FE0F} Unable to get connected devices: " + r.stderr), [];
    }
    var lines := DeviceLines(Split(r.Stdout(), "\n"));
    st, devices := ReadDevices(m, adb, lines);
  }

  /** The `forEach` over the device lines, appending one device per readable line. */
  method ReadDevices(m: Machine, adb: string, lines: seq<string>) returns (st: Status, devices: seq<Device>)
    requires forall k | 0 <= k < |lines| :: LineReadable(lines[k])
    modifies m
    ensures m.files == old(m.files) && (st.Ok? || st.Fatal?)
    ensures var l := ListFrom(m.exec, adb, lines, 0, [], old(m.trace));
      (st.Ok? <==> l.devices.Some?) && devices == l.devices.GetOr([]) && m.trace == l.actions
  {
    devices := [];
    var i := 0;
    while i < |lines|
      invariant 0 <= i <= |lines| && m.files == old(m.files)
      invariant ListFrom(m.exec, adb, lines, i, devices, m.trace) == ListFrom(m.exec, adb, lines, 0, [], old(m.trace))
    {
      var a := Split(lines[i], StateSeparator);
      if |a| == 2 {
        assert Sides(lines[i]) == Some(a);
        var id := Trim(a[0], WhitespacesAndNewlines);
        var archs;
        st, archs := DeviceArchs(m, adb, id);
        if !st.Ok? {
          return st, [];
        }
        assert LineReadable(lines[i]) && ColumnsReadable(id, a[1]);
        var isEmulator := Contains(id, "emulator");
        var c := Split(a[1], " ");
        var model := Split(c[if isEmulator then 1 else 2], ":")[1];
        var device := Split(c[if isEmulator then 2 else 3], ":")[1];
        assert Device(id, archs, model, device, isEmulator) == ReadDevice(a[0], a[1], archs);
        devices := devices + [Device(id, archs, model, device, isEmulator)];
      }
      i := i + 1;
    }
    st := Ok;
  }

  // ---------------------------------------------------------------- install and start

  /** The install check: the last line of the output, without its trailing newlines, says
      `Success`. */
  predicate InstallSucceeded(out: string) {
    Contains(Last(Split(Trim(out, Newlines), "\n")), "Success")
  }

  /** `install(on:pathToAPK:)`: a failed run or a missing `Success` exits with status 1. */
  method Install(m: Machine, adb: string, device: Device, apk: string) returns (st: Status)
    modifies m
    ensures var r := m.exec(InstallCommand(adb, device.id, apk));
      (st.Ok? <==> r.status == 0 && InstallSucceeded(r.Stdout())) && (!st.Ok? ==> st.Exit? && st.code == 1)
    ensures m.files == old(m.files) && m.trace == old(m.trace) + [Ran(InstallCommand(adb, device.id, apk))]
  {
    var r := m.Run(InstallCommand(adb, device.id, apk));
    if r.status != 0 {
      return Exit(1, "\U{26D4}\U{FE0F} Unable to install apk on device " + device.id + ": " + r.stderr);
    }
    var out := r.Stdout();
    var lines := Split(Trim(out, Newlines), "\n");
    if !(|lines| > 0 && Contains(lines[|lines| - 1], "Success")) {
      return Exit(1, "\U{1F4F1} Unable to install apk on device " + device.id + ":\n" + out);
    }
    st := Ok;
  }

  /** The component started: the application's `activity`. */
  function Intent(appId: string, activity: string): string {
    appId + "/." + activity
  }

  /** What `am start` prints when it started exactly `intent`. */
  function StartConfirmation(intent: string): string {
    "Starting: Intent { cmp=" + intent + " }"
  }

  /** `start(on:activity:)`: anything but the exact confirmation is fatal. */
  method Start(m: Machine, adb: string, device: Device, appId: string, activity: string) returns (st: Status)
    modifies m
    ensures var r := m.exec(StartCommand(adb, device.id, Intent(appId, activity)));
      (st.Ok? <==> r.status == 0 &&
                   Trim(r.Stdout(), WhitespacesAndNewlines) == StartConfirmation(Intent(appId, activity))) &&
      (!st.Ok? ==> st.Fatal?)
    ensures m.files == old(m.files)
    ensures m.trace == old(m.trace) + [Ran(StartCommand(adb, device.id, Intent(appId, activity)))]
  {
    var intent := Intent(appId, activity);
    var r := m.Run(StartCommand(adb, device.id, intent));
    if r.status != 0 {
      return Fatal("\U{26D4}\U{FE0F} Unable to start app on device " + device.id + ": " + r.stderr);
    }
    var out := r.Stdout();
    if Trim(out, WhitespacesAndNewlines) != StartConfirmation(intent) {
      return Fatal("\U{1F4F1} Unable to start app on device " + device.id + ":\n" + out);
    }
    st := Ok;
  }

  /** `kill(on:)`: force-stops the app; the outcome is not looked at. */
  method Kill(m: Machine, adb: string, device: Device, appId: string)
    modifies m
    ensures m.files == old(m.files) && m.trace == old(m.trace) + [Ran(KillCommand(adb, device.id, appId))]
  {
    var _ := m.Run(KillCommand(adb, device.id, appId));
  }

  // ---------------------------------------------------------------- the app's process

  /** The tries of the pid query are numbered from 1; the fifth is never made. */
  const PidsAttempts: nat := 5

  /** Every try first looks `sh` up with `Bash.which("sh")`. */
  const ShLookup: seq<string> := WhichCommand("sh")

  /** The pid query, run by the `sh` that the lookup `w` printed. */
  function PidsQuery(w: ProcessResult, adb: string, id: string, appId: string): seq<string> {
    PidsCommand(Trim(w.Stdout(), WhitespacesAndNewlines), adb, id, appId)
  }

  /** The first try, from `attempt` on, whose query succeeds. */
  function FirstAnswer(poll: (seq<string>, nat) -> ProcessResult, cmd: seq<string>, attempt: nat): (r: Option<nat>)
    ensures r.Some? ==> attempt <= r.value < PidsAttempts && poll(cmd, r.value).status == 0 &&
                        forall n | attempt <= n < r.value :: poll(cmd, n).status != 0
    ensures r.None? ==> forall n | attempt <= n < PidsAttempts :: poll(cmd, n).status != 0
    decreases PidsAttempts - attempt
  {
    if attempt >= PidsAttempts then None
    else if poll(cmd, attempt).status == 0 then Some(attempt)
    else FirstAnswer(poll, cmd, attempt + 1)
  }

  /** The second's wait before every try but the first. */
  function Wait(n: nat): seq<Action> {
    if n > 1 then [Slept(1)] else []
  }

  /** What one try does once `sh` is found: the wait, the lookup, then the query. */
  function TryActions(cmd: seq<string>, n: nat): seq<Action> {
    Wait(n) + [Ran(ShLookup), Ran(cmd)]
  }

  /** What tries `from` up to `to` do, in order. */
  function PidsActions(cmd: seq<string>, from: nat, to: nat): seq<Action>
    decreases to - from
  {
    if from >= to then [] else TryActions(cmd, from) + PidsActions(cmd, from + 1, to)
  }

  /** The process ids the pid query printed. */
  function PidList(out: string): seq<string> {
    Split(Trim(out, WhitespacesAndNewlines), " ")
  }

  /**
   * How `pids(on:attempt:)` ends, from `attempt` on. A failed lookup of `sh` halts the first
   * try as `Bash.which` does. Otherwise the first try whose query succeeds gives the process
   * ids, and when none of the tries up to the fourth does, the tool exits with 1.
   */
  ghost predicate PidsOutcome(m: Machine, cmd: seq<string>, id: string, attempt: nat,
                              before: seq<Action>, after: seq<Action>, st: Status, pids: seq<string>)
  {
    var w := m.exec(ShLookup);
    if attempt < PidsAttempts && !WhichFound(w) then
      st == WhichFailure(w, "sh") && pids == [] && after == before + Wait(attempt) + [Ran(ShLookup)]
    else
      Queried(m.poll, cmd, id, attempt, before, after, st, pids)
  }

  /** How the tries from `attempt` on end once `sh` is found: the first query that succeeds
      gives the process ids, and with none up to the fourth try the tool exits with 1. */
  predicate Queried(poll: (seq<string>, nat) -> ProcessResult, cmd: seq<string>, id: string, attempt: nat,
                    before: seq<Action>, after: seq<Action>, st: Status, pids: seq<string>)
  {
    var answer := FirstAnswer(poll, cmd, attempt);
    if answer.Some? then
      st.Ok? && pids == PidList(poll(cmd, answer.value).Stdout()) &&
      after == before + PidsActions(cmd, attempt, answer.value + 1)
    else
      st == Exit(1, PidsFailure(id)) && pids == [] && after == before + PidsActions(cmd, attempt, PidsAttempts)
  }

  /** `pids(on:attempt:)`: retries a failed query until the fourth try, then exits. */
  method Pids(m: Machine, adb: string, device: Device, appId: string, attempt: nat)
    returns (st: Status, pids: seq<string>)
    modifies m
    ensures m.files == old(m.files)
    ensures PidsOutcome(m, PidsQuery(m.exec(ShLookup), adb, device.id, appId), device.id, attempt,
                        old(m.trace), m.trace, st, pids)
    decreases PidsAttempts - attempt
  {
    if attempt >= PidsAttempts {
      return Exit(1, PidsFailure(device.id)), [];
    }
    ghost var start := m.trace;
    ghost var cmd := PidsQuery(m.exec(ShLookup), adb, device.id, appId);
    var found, r := Try(m, adb, device, appId, attempt);
    if found.Halted() {
      LookupFailed(m, cmd, device.id, attempt, start, m.trace, found);
      return found, [];
    }
    ghost var after := m.trace;
    if r.status != 0 {
      st, pids := Pids(m, adb, device, appId, attempt + 1);
      Retried(m, cmd, device.id, attempt, start, m.trace, st, pids);
      return;
    }
    st := Ok;
    pids := PidList(r.Stdout());
    Answered(m, cmd, device.id, attempt, start);
  }

  /** One try of the pid query: the wait, the lookup of `sh`, then the query it runs. */
  method Try(m: Machine, adb: string, device: Device, appId: string, attempt: nat)
    returns (found: Status, r: ProcessResult)
    modifies m
    ensures m.files == old(m.files)
    ensures var w := m.exec(ShLookup);
            var cmd := PidsQuery(w, adb, device.id, appId);
      if WhichFound(w) then
        found == Ok && r == m.poll(cmd, attempt) && m.trace == old(m.trace) + TryActions(cmd, attempt)
      else
        found == WhichFailure(w, "sh") && m.trace == old(m.trace) + Wait(attempt) + [Ran(ShLookup)]
  {
    ghost var w := m.exec(ShLookup);
    if attempt > 1 {
      m.Sleep(1);
    }
    ghost var waited := m.trace;
    assert waited == old(m.trace) + Wait(attempt);
    var sh;
    found, sh := WhichPath(m, "sh");
    r := ProcessResult(0, [], "");
    if found.Halted() {
      assert !WhichFound(w) && found == WhichFailure(w, "sh");
      return;
    }
    assert WhichFound(w) && PidsCommand(sh, adb, device.id, appId) == PidsQuery(w, adb, device.id, appId);
    r := m.Poll(PidsCommand(sh, adb, device.id, appId), attempt);
    assert m.trace == waited + [Ran(ShLookup), Ran(PidsCommand(sh, adb, device.id, appId))];
  }

  /** A failed lookup of `sh` ends the pids at the try that made it. */
  lemma LookupFailed(m: Machine, cmd: seq<string>, id: string, attempt: nat,
                     start: seq<Action>, after: seq<Action>, found: Status)
    requires attempt < PidsAttempts && !WhichFound(m.exec(ShLookup))
    requires found == WhichFailure(m.exec(ShLookup), "sh") && after == start + Wait(attempt) + [Ran(ShLookup)]
    ensures PidsOutcome(m, cmd, id, attempt, start, after, found, [])
  {
  }

  /** After a failed try, what the next tries do completes what this one did. */
  lemma Retried(m: Machine, cmd: seq<string>, id: string, attempt: nat,
                start: seq<Action>, after: seq<Action>, st: Status, pids: seq<string>)
    requires WhichFound(m.exec(ShLookup)) && attempt < PidsAttempts && m.poll(cmd, attempt).status != 0
    requires PidsOutcome(m, cmd, id, attempt + 1, start + TryActions(cmd, attempt), after, st, pids)
    ensures PidsOutcome(m, cmd, id, attempt, start, after, st, pids)
  {
    assert Queried(m.poll, cmd, id, attempt + 1, start + TryActions(cmd, attempt), after, st, pids);
    QueriedStep(m.poll, cmd, id, attempt, start, after, st, pids);
  }

  /** The tries from a failed one on end as the tries after it, preceded by its actions. */
  lemma QueriedStep(poll: (seq<string>, nat) -> ProcessResult, cmd: seq<string>, id: string, attempt: nat,
                    start: seq<Action>, after: seq<Action>, st: Status, pids: seq<string>)
    requires attempt < PidsAttempts && poll(cmd, attempt).status != 0
    requires Queried(poll, cmd, id, attempt + 1, start + TryActions(cmd, attempt), after, st, pids)
    ensures Queried(poll, cmd, id, attempt, start, after, st, pids)
  {
    var answer := FirstAnswer(poll, cmd, attempt);
    assert answer == FirstAnswer(poll, cmd, attempt + 1);
    var to := if answer.Some? then answer.value + 1 else PidsAttempts;
    PidsActionsStep(cmd, attempt, to);
    assert start + TryActions(cmd, attempt) + PidsActions(cmd, attempt + 1, to) == start + PidsActions(cmd, attempt, to);
  }

  /** A successful try is the answer, and it is the last try made. */
  lemma Answered(m: Machine, cmd: seq<string>, id: string, attempt: nat, start: seq<Action>)
    requires WhichFound(m.exec(ShLookup)) && attempt < PidsAttempts && m.poll(cmd, attempt).status == 0
    ensures PidsOutcome(m, cmd, id, attempt, start, start + TryActions(cmd, attempt), Ok,
                        PidList(m.poll(cmd, attempt).Stdout()))
  {
    PidsActionsStep(cmd, attempt, attempt + 1);
    assert TryActions(cmd, attempt) + [] == TryActions(cmd, attempt);
  }

  /** The first try of a range, followed by the rest. */
  lemma PidsActionsStep(cmd: seq<string>, from: nat, to: nat)
    requires from < to
    ensures PidsActions(cmd, from, to) == TryActions(cmd, from) + PidsActions(cmd, from + 1, to)
  {
  }

  function PidsFailure(id: string): string {
    "\U{1F4F1} Unable to get app pid on device " + id
  }

  // ---------------------------------------------------------------- the log

  /** The banner `logcat` prints when a buffer begins. */
  const BannerPrefix: string := "--------- beginning of "
  const MainMarker: string := BannerPrefix + "main"
  const CrashMarker: string := BannerPrefix + "crash"

  /** The circle shown for a log level. */
  function Glyph(level: string): string {
    if level == "A" then "\U{1F534}"
    else if level == "D" then "\U{1F7E4}"
    else if level == "E" then "\U{1F7E0}"
    else if level == "I" then "\U{1F535}"
    else if level == "V" then "\U{1F7E3}"
    else if level == "W" then "\U{1F7E1}"
    else "\U{26AA}\U{FE0F}"
  }

  /** A column `removeAll(where:)` drops: blank after trimming, or a lone ':'. */
  predicate Dropped(column: string) {
    Trim(column, WhitespacesAndNewlines) == [] || column == ":"
  }

  /** The columns `removeAll(where:)` keeps, in order. */
  function KeptColumns(cs: seq<string>): (r: seq<string>)
    ensures |r| <= |cs| && forall k | 0 <= k < |r| :: !Dropped(r[k])
    decreases |cs|
  {
    if cs == [] then []
    else KeptColumns(cs[..|cs| - 1]) + (if Dropped(cs[|cs| - 1]) then [] else [cs[|cs| - 1]])
  }

  /** What is printed for one line of the log. */
  function LogcatLine(line: string): string {
    if line == MainMarker then "\U{1F5DE} LOGCAT STARTED"
    else if line == CrashMarker then "\U{1F4A5} APP HAS BEEN CRASHED"
    else
      var c := Split(line, " ");
      if |c| <= 8 then Trim(line, WhitespacesAndNewlines)
      else
        var time := Split(c[1], ".")[0];
        var tag := Trim(c[7], WhitespacesAndNewlines);
        Join([Glyph(c[6]), "[" + time + "]", tag] + KeptColumns(c[8..]), " ")
  }

  /** The reformatting of one log line, rearranging its columns in place. */
  method FormatLogcatLine(line: string) returns (out: string)
    ensures out == LogcatLine(line)
  {
    if line == MainMarker {
      return "\U{1F5DE} LOGCAT STARTED";
    } else if line == CrashMarker {
      return "\U{1F4A5} APP HAS BEEN CRASHED";
    }
    var components := Split(line, " ");
    if |components| <= 8 {
      return Trim(line, WhitespacesAndNewlines);
    }
    var time := Split(components[1], ".")[0];
    var level := components[6];
    var tag := Trim(components[7], WhitespacesAndNewlines);
    var trueLevel := Glyph(level);
    var kept := RemoveDropped(components[8..]);
    components := [tag] + kept;
    components := ["[" + time + "]"] + components;
    components := [trueLevel] + components;
    PrependedThree(trueLevel, "[" + time + "]", tag, kept);
    out := Join(components, " ");
  }

  lemma PrependedThree(a: string, b: string, c: string, rest: seq<string>)
    ensures [a] + ([b] + ([c] + rest)) == [a, b, c] + rest
  {
  }

  /** `removeAll(where:)` over the message columns. */
  method RemoveDropped(columns: seq<string>) returns (kept: seq<string>)
    ensures kept == KeptColumns(columns)
  {
    kept := [];
    for j := 0 to |columns|
      invariant kept == KeptColumns(columns[..j])
    {
      assert columns[..j + 1][..j] == columns[..j];
      if !Dropped(columns[j]) {
        kept := kept + [columns[j]];
      }
    }
    assert columns[..|columns|] == columns;
  }

  /** The lines printed for one chunk of the log stream. */
  function ChunkLines(chunk: string): seq<string> {
    Split(Trim(chunk, Newlines), "\n")
  }

  /** Reformats every line of a chunk, in order. */
  method FormatLogcatChunk(chunk: string) returns (printed: seq<string>)
    ensures printed == Reformatted(ChunkLines(chunk))
  {
    var lines := ChunkLines(chunk);
    ghost var want := Reformatted(lines);
    printed := [];
    var i := 0;
    while i < |lines|
      invariant 0 <= i <= |lines|
      invariant |printed| == i && forall k | 0 <= k < i :: printed[k] == want[k]
    {
      var out := FormatLogcatLine(lines[i]);
      OneMore(printed, out, want, i);
      printed := printed + [out];
      i := i + 1;
    }
  }

  /** A sequence agreeing with `want` up to `i` and extended by `want[i]` agrees up to `i + 1`. */
  lemma OneMore<T>(done: seq<T>, next: T, want: seq<T>, i: nat)
    requires i < |want| && next == want[i]
    requires |done| == i && forall k | 0 <= k < i :: done[k] == want[k]
    ensures forall k | 0 <= k < i + 1 :: (done + [next])[k] == want[k]
  {
  }

  /** Everything printed for a sequence of chunks. */
  function LogcatOutput(chunks: seq<string>): seq<string>
    decreases |chunks|
  {
    if chunks == [] then []
    else LogcatOutput(chunks[..|chunks| - 1]) + Reformatted(ChunkLines(chunks[|chunks| - 1]))
  }

  /** The lines printed for `lines`, one for each, in order. */
  function Reformatted(lines: seq<string>): (r: seq<string>)
    ensures |r| == |lines| && forall k | 0 <= k < |lines| :: r[k] == LogcatLine(lines[k])
    decreases |lines|
  {
    if lines == [] then [] else Reformatted(lines[..|lines| - 1]) + [LogcatLine(lines[|lines| - 1])]
  }

  /**
   * How `logcat(on:)` ends, `cmd` being the pid query: when the pid lookup halts, so does the
   * log; otherwise the log of the first process id is followed until its stream ends, and
   * everything it printed, reformatted, is followed by the two closing lines.
   */
  ghost predicate Logged(m: Machine, adb: string, id: string, cmd: seq<string>,
                         before: seq<Action>, after: seq<Action>, st: Status, printed: seq<string>)
  {
    var answer := FirstAnswer(m.poll, cmd, 1);
    if !WhichFound(m.exec(ShLookup)) || answer.None? then
      st.Halted() && printed == [] && PidsOutcome(m, cmd, id, 1, before, after, st, [])
    else
      var pid := PidList(m.poll(cmd, answer.value).Stdout())[0];
      var log := m.exec(LogcatCommand(adb, id, pid));
      st.Ok? && printed == LogcatOutput(log.chunks) + LogcatEnd(log.stderr) &&
      after == before + PidsActions(cmd, 1, answer.value + 1) + [Ran(LogcatCommand(adb, id, pid))]
  }

  /** `logcat(on:)`: finds the app's process and follows its log until the stream ends. */
  method Logcat(m: Machine, adb: string, device: Device, appId: string)
    returns (st: Status, printed: seq<string>)
    modifies m
    ensures m.files == old(m.files)
    ensures Logged(m, adb, device.id, PidsQuery(m.exec(ShLookup), adb, device.id, appId),
                   old(m.trace), m.trace, st, printed)
  {
    ghost var cmd := PidsQuery(m.exec(ShLookup), adb, device.id, appId);
    var pids;
    st, pids := Pids(m, adb, device, appId, 1);
    PidsFound(m, cmd, device.id, old(m.trace), m.trace, st, pids);
    if !st.Ok? {
      PidsMissing(m, adb, cmd, device.id, old(m.trace), m.trace, st, pids);
      return st, [];
    }
    // `pids.first` always exists: splitting yields at least one part.
    var pid := pids[0];
    var r := m.Run(LogcatCommand(adb, device.id, pid));
    printed := FollowLog(r.chunks);
    printed := printed + LogcatEnd(r.stderr);
  }

  /** From the first try, the pids are found exactly when the lookup of `sh` succeeds and
      some query answers. */
  lemma PidsFound(m: Machine, cmd: seq<string>, id: string,
                  before: seq<Action>, after: seq<Action>, st: Status, pids: seq<string>)
    requires PidsOutcome(m, cmd, id, 1, before, after, st, pids)
    ensures var answer := FirstAnswer(m.poll, cmd, 1);
      (st.Ok? <==> WhichFound(m.exec(ShLookup)) && answer.Some?) &&
      (st.Ok? ==> pids == PidList(m.poll(cmd, answer.value).Stdout()) &&
                  after == before + PidsActions(cmd, 1, answer.value + 1))
  {
  }

  /** When the pids are not found, the log ends with them. */
  lemma PidsMissing(m: Machine, adb: string, cmd: seq<string>, id: string,
                    before: seq<Action>, after: seq<Action>, st: Status, pids: seq<string>)
    requires PidsOutcome(m, cmd, id, 1, before, after, st, pids) && !st.Ok?
    ensures pids == [] && Logged(m, adb, id, cmd, before, after, st, [])
  {
    PidsFound(m, cmd, id, before, after, st, pids);
  }

  /** The two lines printed once the log stream has ended. */
  function LogcatEnd(stderr: string): seq<string> {
    ["\U{26D4}\U{FE0F} Logcat error: " + stderr, "\U{1F5DE} Logcat stopped"]
  }

  /** The readability handler, called once per chunk of the log stream. */
  method FollowLog(chunks: seq<string>) returns (printed: seq<string>)
    ensures printed == LogcatOutput(chunks)
  {
    printed := [];
    var i := 0;
    while i < |chunks|
      invariant 0 <= i <= |chunks|
      invariant printed == LogcatOutput(chunks[..i])
    {
      var lines := FormatLogcatChunk(chunks[i]);
      assert chunks[..i + 1][..i] == chunks[..i];
      printed := printed + lines;
      i := i + 1;
    }
    assert chunks[..i] == chunks;
  }
}
