/**
 * `Droidy`: the entry point of the build script. It finds the Swift project folder, holds
 * the tools and the Android project settings the fluent setters change, prepares every tool
 * once and in a fixed order, and builds, installs and launches the app.
 */
module Orchestration {
  import opened Wrappers
  import opened Strings
  import opened Host
  import opened Paths
  import opened Archs
  import opened Adb
  import JavaTool
  import GradleTool
  import ToolchainTool
  import NdkTool
  import SdkTool
  import GradleWrapper

  // ---------------------------------------------------------------- the project folder

  /** `.first` of a split that omits empty pieces: the first non-empty piece. */
  function FirstNonEmpty(parts: seq<string>): (r: Option<string>)
    ensures r.Some? ==> r.value != "" && r.value in parts
    ensures r.None? <==> forall k | 0 <= k < |parts| :: parts[k] == ""
    ensures parts != [] && parts[0] != "" ==> r == Some(parts[0])
  {
    if parts == [] then None
    else if parts[0] != "" then Some(parts[0])
    else
      var r := FirstNonEmpty(parts[1..]);
      assert forall k | 1 <= k < |parts| :: parts[k] == parts[1..][k - 1];
      r
  }

  /**
   * `projectDir(buildDir:)`: the working directory, unless the system is new enough
   * (`modern`) and the working directory lies in Xcode's `DerivedData`; then the part of
   * the build file's path before its first `Sources`, when that part is not empty.
   */
  function ProjectDir(workDir: string, buildDir: string, modern: bool): (dir: string)
    ensures !(modern && Contains(workDir, "DerivedData")) ==> dir == workDir
    ensures dir == workDir || (dir != "" && dir in Split(buildDir, "Sources"))
  {
    if modern && Contains(workDir, "DerivedData") then
      match FirstNonEmpty(Split(buildDir, "Sources"))
      case Some(app) => app
      case None => workDir
    else workDir
  }

  /** In `DerivedData`, the project folder is what precedes the first `Sources`. */
  lemma ProjectDirBeforeSources(workDir: string, pre: string, post: string)
    requires Contains(workDir, "DerivedData") && pre != ""
    requires forall i | 0 <= i < |pre| :: !StartsWith((pre + "Sources" + post)[i..], "Sources")
    ensures ProjectDir(workDir, pre + "Sources" + post, true) == pre
  {
    SplitAt(pre, post, "Sources");
  }

  /** A build path without any `Sources` is taken whole as the project folder. */
  lemma ProjectDirWithoutSources(workDir: string, buildDir: string)
    requires Contains(workDir, "DerivedData") && buildDir != "" && !Contains(buildDir, "Sources")
    ensures ProjectDir(workDir, buildDir, true) == buildDir
  {
    SplitNoOccurrence(buildDir, "Sources");
  }

  /** `folderURL()`: the tool folder `.droidy` in the home folder. */
  function ToolFolder(home: string): string {
    Append(home, ".droidy")
  }

  function WrongDirectoryNotice(folder: string): string {
    "\U{26D4}\U{FE0F} seems working directory is wrong\n    file://" + folder + "\n" + WrongDirectoryTail
  }

  const WrongDirectoryTail: string :=
    "\U{1F481}\U{200D}\U{2642}\U{FE0F} cause it doesn't contain the Package.swift file\n"
    + "\U{1F449} to fix it please edit your scheme, open Options tab and set custom working directory to the project folder"

  // ---------------------------------------------------------------- archive settings

  /** What a `local*Archive` setter prints before stopping on a path relative to home. */
  function RelativeArchiveNotice(what: string): string {
    "\U{26D4}\U{FE0F} Please specify absolute path for the " + what + " archive, relatevie path doesn't work"
  }

  /** The guard of the `local*Archive` setters: the path to store, or the failure. */
  function ArchiveSetting(path: string, what: string): (r: (Status, Option<string>))
    ensures r.0.Ok? <==> !StartsWith(path, "~")
    ensures r.0.Ok? ==> r.1 == Some(path)
    ensures !r.0.Ok? ==> r.0 == Fatal(RelativeArchiveNotice(what))
  {
    if StartsWith(path, "~") then (Fatal(RelativeArchiveNotice(what)), None) else (Ok, Some(path))
  }

  /** An absolute archive path is stored unchanged; a path starting with `~` never is. */
  lemma ArchiveSettingAccepts(rest: string, what: string)
    ensures ArchiveSetting("/" + rest, what) == (Ok, Some("/" + rest))
    ensures ArchiveSetting("~" + rest, what).0.Fatal?
  {
    assert ("~" + rest)[..1] == "~";
  }

  // ---------------------------------------------------------------- the Android project

  datatype SigningConfig = SigningConfig(storeFile: string, storePassword: string, keyAlias: string,
                                         keyPassword: string)

  /** `Project`: the settings of the Android project generated next to the Swift project. */
  class Project {
    var folder: string
    var applicationId: string
    var minSdk: int
    var targetSdk: int
    var compileSdk: int
    var versionCode: int
    var versionName: string
    var signing: SigningConfig

    /** `init(_:)` and the lazy `projectFolder`: `AndroidProject` in the Swift project folder. */
    constructor (swiftProjectFolder: string)
      ensures folder == Append(swiftProjectFolder, "AndroidProject")
      ensures applicationId == "com.my.app" && minSdk == 24 && targetSdk == 32 && compileSdk == 32
      ensures versionCode == 1 && versionName == "1.0" && signing == SigningConfig("", "", "", "")
    {
      folder := Append(swiftProjectFolder, "AndroidProject");
      applicationId := "com.my.app";
      minSdk := 24;
      targetSdk := 32;
      compileSdk := 32;
      versionCode := 1;
      versionName := "1.0";
      signing := SigningConfig("", "", "", "");
    }

    /** `prepare()`: a missing project folder is created; the generated files are not modelled. */
    method Prepare(m: Machine)
      modifies m
      ensures folder in old(m.files) ==> m.files == old(m.files) && m.trace == old(m.trace)
      ensures folder !in old(m.files) ==>
        m.files == old(m.files) + {folder} && m.trace == old(m.trace) + [Created(folder)]
    {
      if !m.Exists(folder) {
        m.CreateDirectory(folder);
      }
    }
  }

  // ---------------------------------------------------------------- devices

  /** The `adb` of the SDK rooted at `sdkRoot`. */
  function AdbOf(sdkRoot: string): string {
    Append(SdkTool.PlatformToolsOf(sdkRoot), "adb")
  }

  /** The device listing of that `adb` can be read without trapping. */
  predicate AdbReadable(m: Machine, sdkRoot: string) {
    ListingReadable(m.exec(DevicesCommand(AdbOf(sdkRoot))))
  }

  /** What `devicesList()` finds, and the actions it performs, from the listing on. */
  function Listed(m: Machine, adb: string): Listing
    requires ListingReadable(m.exec(DevicesCommand(adb)))
  {
    var r := m.exec(DevicesCommand(adb));
    if r.status != 0 then Listing(None, [Ran(DevicesCommand(adb))])
    else ListFrom(m.exec, adb, DeviceLines(Split(r.Stdout(), "\n")), 0, [], [Ran(DevicesCommand(adb))])
  }

  /** The listing loop finds the same devices whatever was done before it, and only appends. */
  lemma {:induction false} ListFromShift(exec: seq<string> -> ProcessResult, adb: string, lines: seq<string>,
                                         i: nat, found: seq<Device>, pre: seq<Action>, done: seq<Action>)
    requires i <= |lines| && forall k | i <= k < |lines| :: LineReadable(lines[k])
    ensures var l := ListFrom(exec, adb, lines, i, found, done);
      ListFrom(exec, adb, lines, i, found, pre + done) == Listing(l.devices, pre + l.actions)
    decreases |lines| - i
  {
    if i < |lines| {
      match Sides(lines[i])
      case None =>
        ListFromShift(exec, adb, lines, i + 1, found, pre, done);
      case Some(a) =>
        var id := Trim(a[0], WhitespacesAndNewlines);
        var step := [Ran(ArchsCommand(adb, id))];
        assert (pre + done) + step == pre + (done + step);
        var q := exec(ArchsCommand(adb, id));
        if q.status == 0 {
          assert LineReadable(lines[i]);
          ListFromShift(exec, adb, lines, i + 1, found + [ReadDevice(a[0], a[1], ParseArchs(q.Stdout()))],
                        pre, done + step);
        }
    }
  }

  /** `devicesList()` as `Listed` describes it. */
  method ListDevices(m: Machine, adb: string) returns (st: Status, devices: seq<Device>)
    requires ListingReadable(m.exec(DevicesCommand(adb)))
    modifies m
    ensures var l := Listed(m, adb);
      m.files == old(m.files) && m.trace == old(m.trace) + l.actions &&
      (st.Ok? <==> l.devices.Some?) && devices == l.devices.GetOr([])
  {
    var r := m.exec(DevicesCommand(adb));
    if r.status == 0 {
      ListFromShift(m.exec, adb, DeviceLines(Split(r.Stdout(), "\n")), 0, [], m.trace, [Ran(DevicesCommand(adb))]);
    }
    st, devices := DevicesList(m, adb);
  }

  /** The device property a `preferredDevice(...)` variant compares. */
  datatype Field = Id | Model | Codename

  function FieldOf(d: Device, f: Field): string {
    match f
    case Id => d.id
    case Model => d.model
    case Codename => d.device
  }

  /** Where the search of `first(where:)` from `i` on stops: the first matching index, or
      the end of the list. */
  function MatchFrom(devices: seq<Device>, f: Field, value: string, i: nat): (k: nat)
    requires i <= |devices|
    ensures i <= k <= |devices|
    ensures k < |devices| ==> FieldOf(devices[k], f) == value
    ensures forall j | i <= j < k :: FieldOf(devices[j], f) != value
    decreases |devices| - i
  {
    if i == |devices| || FieldOf(devices[i], f) == value then i else MatchFrom(devices, f, value, i + 1)
  }

  /** `first(where:)`: the first device whose field equals `value`. */
  function FirstMatch(devices: seq<Device>, f: Field, value: string): (r: Option<Device>)
    ensures r.None? <==> forall k | 0 <= k < |devices| :: FieldOf(devices[k], f) != value
    ensures r.Some? ==> exists k | 0 <= k < |devices| ::
      devices[k] == r.value && FieldOf(r.value, f) == value &&
      forall j | 0 <= j < k :: FieldOf(devices[j], f) != value
  {
    var k := MatchFrom(devices, f, value, 0);
    if k < |devices| then Some(devices[k]) else None
  }

  /** The device `run()` works on: the preferred one, or else the first listed one. */
  function Chosen(preferred: Option<Device>, listed: Option<seq<Device>>): Option<Device> {
    if preferred.Some? then preferred
    else if listed.Some? && listed.value != [] then Some(listed.value[0])
    else None
  }

  /** The architecture `build(_:)` asks for: the preferred device's first, or none, which
      means every configured one. */
  function BuildTarget(preferred: Option<Device>): (arch: Option<Arch>)
    ensures arch.Some? <==> preferred.Some? && preferred.value.archs != []
    ensures arch.Some? ==> arch.value == preferred.value.archs[0]
  {
    if preferred.Some? && preferred.value.archs != [] then Some(preferred.value.archs[0]) else None
  }

  const NoDevicesNotice: string := "\U{2705} No devices found to install and launch"

  /** The launch in `run()`: the app is stopped, then `MainActivity` is started; anything but
      the exact confirmation stops the run before the log is followed, and otherwise the log
      is followed as `Adb.Logged` says. */
  ghost predicate Launched(m: Machine, adb: string, appId: string, device: Device,
                           before: seq<Action>, after: seq<Action>, st: Status, printed: seq<string>)
  {
    var start := StartCommand(adb, device.id, Intent(appId, "MainActivity"));
    var steps := [Ran(KillCommand(adb, device.id, appId)), Ran(start)];
    var s := m.exec(start);
    if !(s.status == 0 && Trim(s.Stdout(), WhitespacesAndNewlines) == StartConfirmation(Intent(appId, "MainActivity"))) then
      st.Fatal? && printed == [] && after == before + steps
    else Logged(m, adb, device.id, PidsQuery(m.exec(ShLookup), adb, device.id, appId), before + steps, after, st, printed)
  }

  /** What installing and launching on `device` leaves behind: a failed assembly or install
      stops the run before anything is launched. */
  ghost predicate Deployed(m: Machine, adb: string, project: string, appId: string, device: Device,
                           before: seq<Action>, after: seq<Action>, st: Status, printed: seq<string>)
    requires device.archs != []
  {
    var assemble := GradleWrapper.AssembleCommand(project);
    var install := InstallCommand(adb, device.id, GradleWrapper.PathToApk(project, device.PrimaryArch(), true));
    var i := m.exec(install);
    if m.exec(assemble).status != 0 then st.Fatal? && printed == [] && after == before + [Ran(assemble)]
    else if !(i.status == 0 && InstallSucceeded(i.Stdout())) then
      st.Exit? && st.code == 1 && printed == [] && after == before + [Ran(assemble), Ran(install)]
    else Launched(m, adb, appId, device, before + [Ran(assemble), Ran(install)], after, st, printed)
  }

  /** The body of `run()` once a device is chosen: assemble, install the APK built for its
      first architecture, then launch. */
  method Deploy(m: Machine, adb: string, project: string, appId: string, device: Device)
    returns (st: Status, printed: seq<string>)
    requires device.archs != []
    modifies m
    ensures m.files == old(m.files)
    ensures Deployed(m, adb, project, appId, device, old(m.trace), m.trace, st, printed)
  {
    printed := [];
    ghost var before := m.trace;
    var assemble := GradleWrapper.AssembleCommand(project);
    var apk := GradleWrapper.PathToApk(project, device.PrimaryArch(), true);
    st := GradleWrapper.AssembleDebug(m, project);
    if st.Halted() {
      assert m.exec(assemble).status != 0 && m.trace == before + [Ran(assemble)];
      return;
    }
    st := Install(m, adb, device, apk);
    ghost var installed := before + [Ran(assemble), Ran(InstallCommand(adb, device.id, apk))];
    assert m.trace == installed;
    if st.Halted() {
      return;
    }
    st, printed := Launch(m, adb, device, appId);
  }

  /** Stops the app, starts `MainActivity` and follows the log. */
  method Launch(m: Machine, adb: string, device: Device, appId: string)
    returns (st: Status, printed: seq<string>)
    modifies m
    ensures m.files == old(m.files)
    ensures Launched(m, adb, appId, device, old(m.trace), m.trace, st, printed)
  {
    printed := [];
    Kill(m, adb, device, appId);
    st := Start(m, adb, device, appId, "MainActivity");
    AppendTwo(old(m.trace), Ran(KillCommand(adb, device.id, appId)),
              Ran(StartCommand(adb, device.id, Intent(appId, "MainActivity"))));
    if st.Halted() {
      return;
    }
    st, printed := FollowLog(m, adb, device, appId);
  }

  /** `logcat(on:)` on the launched app. */
  method FollowLog(m: Machine, adb: string, device: Device, appId: string)
    returns (st: Status, printed: seq<string>)
    modifies m
    ensures m.files == old(m.files)
    ensures Logged(m, adb, device.id, PidsQuery(m.exec(ShLookup), adb, device.id, appId),
                   old(m.trace), m.trace, st, printed)
  {
    st, printed := Logcat(m, adb, device, appId);
  }

  // ---------------------------------------------------------------- the script

  /** The tools in the order `prepare()` prepares them. */
  datatype Stage = JavaStage | GradleStage | ToolchainStage | NdkStage | SdkStage | ProjectStage

  const StageCount: nat := 6

  /** The tool `prepare()` handles `i`-th, counting from 0. */
  function StageAt(i: nat): Stage {
    if i == 0 then JavaStage
    else if i == 1 then GradleStage
    else if i == 2 then ToolchainStage
    else if i == 3 then NdkStage
    else if i == 4 then SdkStage
    else ProjectStage
  }

  /** The first `n` tools `prepare()` handles, in order. */
  function FirstStages(n: nat): (r: seq<Stage>)
    ensures |r| == n
  {
    if n == 0 then [] else FirstStages(n - 1) + [StageAt(n - 1)]
  }

  class Droidy {
    /** The Swift project folder. */
    const projectFolder: string
    const java: JavaTool.Java
    const gradle: GradleTool.Gradle
    const toolchain: ToolchainTool.Toolchain
    const ndk: NdkTool.Ndk
    const sdk: SdkTool.Sdk
    const project: Project
    var prepared: bool
    var preferred: Option<Device>
    /** The tools prepared so far, in order. */
    ghost var stages: seq<Stage>

    /** `init(buildDir:)` past its `Package.swift` check: the tools with their settings from
        the environment and the tool folder in the home folder. */
    constructor (m: Machine, projectFolder: string)
      ensures this.projectFolder == projectFolder && !prepared && preferred == None && stages == []
      ensures java.versions == ["17"] && !java.autoInstall
      ensures gradle.folder == ToolFolder(m.home) && toolchain.folder == ToolFolder(m.home)
      ensures ndk.folder == ToolFolder(m.home) && sdk.folder == ToolFolder(m.home)
      ensures project.folder == Append(projectFolder, "AndroidProject") && project.compileSdk == 32
      ensures fresh(java) && fresh(gradle) && fresh(toolchain) && fresh(ndk) && fresh(sdk) && fresh(project)
    {
      this.projectFolder := projectFolder;
      java := new JavaTool.Java();
      gradle := new GradleTool.Gradle(m.env, ToolFolder(m.home));
      toolchain := new ToolchainTool.Toolchain(m.env, ToolFolder(m.home));
      ndk := new NdkTool.Ndk(m.env, ToolFolder(m.home));
      sdk := new SdkTool.Sdk(m.env, ToolFolder(m.home));
      project := new Project(projectFolder);
      prepared := false;
      preferred := None;
      stages := [];
    }

    // -------------------------------------------------------------- settings

    method PreferredGradleVersion(version: string)
      modifies gradle`version
      ensures gradle.version == version
    {
      gradle.version := version;
    }

    method LinkToGradle(link: string)
      modifies gradle`url
      ensures gradle.url == link
    {
      gradle.url := link;
    }

    method LocalGradleArchive(path: string) returns (st: Status)
      modifies gradle`local
      ensures st == ArchiveSetting(path, "gradle").0
      ensures if st.Ok? then gradle.local == Some(path) else gradle.local == old(gradle.local)
    {
      var setting := ArchiveSetting(path, "gradle");
      st := setting.0;
      if st.Ok? {
        gradle.local := setting.1;
      }
    }

    method AutomaticallyDownloadGradle()
      modifies gradle`autoDownload
      ensures gradle.autoDownload
    {
      gradle.autoDownload := true;
    }

    method PreferredToolchainVersion(version: string)
      modifies toolchain`version
      ensures toolchain.version == version
    {
      toolchain.version := version;
    }

    method LinkToToolchain(link: string)
      modifies toolchain`url
      ensures toolchain.url == link
    {
      toolchain.url := link;
    }

    method LocalToolchainArchive(path: string) returns (st: Status)
      modifies toolchain`local
      ensures st == ArchiveSetting(path, "toolchain").0
      ensures if st.Ok? then toolchain.local == Some(path) else toolchain.local == old(toolchain.local)
    {
      var setting := ArchiveSetting(path, "toolchain");
      st := setting.0;
      if st.Ok? {
        toolchain.local := setting.1;
      }
    }

    method AutomaticallyDownloadToolchain()
      modifies toolchain`autoDownload
      ensures toolchain.autoDownload
    {
      toolchain.autoDownload := true;
    }

    method Architectures(archs: seq<Arch>)
      modifies toolchain`archs
      ensures toolchain.archs == archs
    {
      toolchain.archs := archs;
    }

    method PreferredNdkVersion(version: string)
      modifies ndk`version
      ensures ndk.version == version
    {
      ndk.version := version;
    }

    method LinkToNdk(link: string)
      modifies ndk`url
      ensures ndk.url == link
    {
      ndk.url := link;
    }

    method LocalNdkArchive(path: string) returns (st: Status)
      modifies ndk`local
      ensures st == ArchiveSetting(path, "NDK").0
      ensures if st.Ok? then ndk.local == Some(path) else ndk.local == old(ndk.local)
    {
      var setting := ArchiveSetting(path, "NDK");
      st := setting.0;
      if st.Ok? {
        ndk.local := setting.1;
      }
    }

    method AutomaticallyDownloadNdk()
      modifies ndk`autoDownload
      ensures ndk.autoDownload
    {
      ndk.autoDownload := true;
    }

    method LinkToSdk(link: string)
      modifies sdk`url
      ensures sdk.url == link
    {
      sdk.url := link;
    }

    method LocalSdkArchive(path: string) returns (st: Status)
      modifies sdk`local
      ensures st == ArchiveSetting(path, "SDK").0
      ensures if st.Ok? then sdk.local == Some(path) else sdk.local == old(sdk.local)
    {
      var setting := ArchiveSetting(path, "SDK");
      st := setting.0;
      if st.Ok? {
        sdk.local := setting.1;
      }
    }

    method AutomaticallyDownloadSdk()
      modifies sdk`autoDownload
      ensures sdk.autoDownload
    {
      sdk.autoDownload := true;
    }

    method AutomaticallyInstallJava()
      modifies java`autoInstall
      ensures java.autoInstall
    {
      java.autoInstall := true;
    }

    method ProjectPath(path: string)
      modifies project`folder
      ensures project.folder == path
    {
      project.folder := path;
    }

    method ProjectApplicationId(id: string)
      modifies project`applicationId
      ensures project.applicationId == id
    {
      project.applicationId := id;
    }

    method ProjectMinSdkVersion(value: int)
      modifies project`minSdk
      ensures project.minSdk == value
    {
      project.minSdk := value;
    }

    method ProjectTargetSdkVersion(value: int)
      modifies project`targetSdk
      ensures project.targetSdk == value
    {
      project.targetSdk := value;
    }

    method ProjectCompileSdkVersion(value: int)
      modifies project`compileSdk
      ensures project.compileSdk == value
    {
      project.compileSdk := value;
    }

    method ProjectVersionCode(code: int)
      modifies project`versionCode
      ensures project.versionCode == code
    {
      project.versionCode := code;
    }

    method ProjectVersionName(value: string)
      modifies project`versionName
      ensures project.versionName == value
    {
      project.versionName := value;
    }

    method Signing(config: SigningConfig)
      modifies project`signing
      ensures project.signing == config
    {
      project.signing := config;
    }

    // -------------------------------------------------------------- prepare

    /** What the Gradle check in `prepare()` needs: a readable version report. */
    predicate PrepareReady(m: Machine)
      reads this, gradle
    {
      java.versions != [] && GradleTool.ReportReadable(m.exec(GradleTool.VersionCommand(gradle.Candidate())))
    }

    /**
     * `prepare()`: does nothing once it has run; otherwise marks itself as run and prepares
     * Java, Gradle, the toolchain, the NDK, the SDK and the Android project in that order,
     * stopping at the first tool that gives up.
     */
    method Prepare(m: Machine) returns (st: Status, ghost ran: nat)
      requires !prepared ==> PrepareReady(m)
      modifies this`prepared, this`stages, m, gradle`path, toolchain`path, ndk`path, sdk`path
      ensures prepared
      ensures old(prepared) ==>
        st == Ok && ran == 0 && m.files == old(m.files) && m.trace == old(m.trace) &&
        gradle.path == old(gradle.path) && toolchain.path == old(toolchain.path) &&
        ndk.path == old(ndk.path) && sdk.path == old(sdk.path)
      ensures !old(prepared) ==> 1 <= ran && (ran < StageCount ==> st.Halted())
      ensures ran <= StageCount && stages == old(stages) + FirstStages(ran)
      ensures toolchain.path == old(toolchain.path) || toolchain.path == toolchain.DefaultPath()
      ensures sdk.path == old(sdk.path) || sdk.path == sdk.DefaultPath()
    {
      if prepared {
        return Ok, 0;
      }
      prepared := true;
      ghost var log;
      st, log := RunStages(m);
      stages := stages + log;
      ran := |log|;
    }

    /** The six preparations of `prepare()` in order, up to the first failure; `ran` of them
        were started. */
    method RunStages(m: Machine) returns (st: Status, ghost log: seq<Stage>)
      requires PrepareReady(m)
      modifies m, gradle`path, toolchain`path, ndk`path, sdk`path
      ensures 1 <= |log| <= StageCount && log == FirstStages(|log|)
      ensures |log| < StageCount ==> st.Halted()
      ensures toolchain.path == old(toolchain.path) || toolchain.path == toolchain.DefaultPath()
      ensures sdk.path == old(sdk.path) || sdk.path == sdk.DefaultPath()
    {
      log := FirstStages(1);
      st := PrepareJava(m, java);
      if st.Halted() {
        return;
      }
      log := FirstStages(2);
      st := PrepareGradle(m, gradle);
      if st.Halted() {
        return;
      }
      log := FirstStages(3);
      st := PrepareToolchain(m, toolchain);
      if st.Halted() {
        return;
      }
      log := FirstStages(4);
      st := PrepareNdk(m, ndk);
      if st.Halted() {
        return;
      }
      log := FirstStages(5);
      st := PrepareSdk(m, sdk, project.compileSdk);
      if st.Halted() {
        return;
      }
      log := FirstStages(6);
      project.Prepare(m);
    }

    // -------------------------------------------------------------- devices, build, run

    /**
     * `preferredDevice(id:)`, `preferredDevice(model:)` and `preferredDevice(device:)`:
     * after preparing, keeps the first listed device whose field equals `value`, or none.
     */
    method PreferDevice(m: Machine, f: Field, value: string) returns (st: Status)
      requires !prepared ==> PrepareReady(m)
      requires AdbReadable(m, sdk.path) && AdbReadable(m, sdk.DefaultPath())
      modifies this`prepared, this`stages, m, gradle`path, toolchain`path, ndk`path, sdk`path, this`preferred
      ensures sdk.path == old(sdk.path) || sdk.path == sdk.DefaultPath()
      ensures st.Ok? ==> prepared
      ensures st.Ok? ==> var l := Listed(m, AdbOf(sdk.path));
        l.devices.Some? && preferred == FirstMatch(l.devices.value, f, value)
      ensures st.Halted() ==> preferred == old(preferred)
    {
      ghost var ran;
      st, ran := Prepare(m);
      if st.Halted() {
        return;
      }
      var devices;
      st, devices := ListDevices(m, AdbOf(sdk.path));
      if st.Halted() {
        return;
      }
      preferred := FirstMatch(devices, f, value);
    }

    /** The toolchain's libraries can be read after a build from `root`. */
    predicate BuildReady(m: Machine, root: string, product: string)
      reads this, toolchain, project
    {
      ToolchainTool.Readable(m, ToolchainTool.Job(ToolchainTool.BuildBinOf(root), ToolchainTool.CopyBinOf(root),
                                                   product, project.folder),
                             toolchain.Targets(BuildTarget(preferred)))
    }

    /** `build(_:)`: prepares, then builds `product` for the preferred device's first
        architecture, or for every configured one. */
    method Build(m: Machine, product: string) returns (st: Status)
      requires !prepared ==> PrepareReady(m)
      requires BuildReady(m, toolchain.path, product) && BuildReady(m, toolchain.DefaultPath(), product)
      modifies this`prepared, this`stages, m, gradle`path, toolchain`path, ndk`path, sdk`path
      ensures st.Ok? ==> prepared
      ensures st.Ok? ==>
        ToolchainTool.AllBuilt(m, toolchain.JobFor(product, project.folder), toolchain.Targets(BuildTarget(preferred)))
      ensures old(prepared) ==>
        var job := toolchain.JobFor(product, project.folder);
        var todo := toolchain.Targets(BuildTarget(preferred));
        m.trace == old(m.trace) + ToolchainTool.BuildTrace(m, job, todo) &&
        (st.Ok? <==> ToolchainTool.AllBuilt(m, job, todo))
    {
      ghost var todo, folder := toolchain.Targets(BuildTarget(preferred)), project.folder;
      ghost var ran;
      st, ran := Prepare(m);
      if st.Halted() {
        return;
      }
      assert toolchain.Targets(BuildTarget(preferred)) == todo && project.folder == folder;
      assert BuildReady(m, toolchain.path, product);
      st := toolchain.Build(m, product, project.folder, BuildTarget(preferred));
    }

    /** What `run()` needs to avoid a trap: a readable listing when it lists, and a known
        architecture for the device it picks. */
    predicate RunReady(m: Machine)
      reads this, sdk
    {
      (preferred.None? ==> AdbReadable(m, sdk.path)) &&
      var chosen := if preferred.Some? then preferred else Chosen(None, Listed(m, AdbOf(sdk.path)).devices);
      chosen.Some? ==> chosen.value.archs != []
    }

    /**
     * `run()`: picks the preferred device, or else the first listed one; with none, prints
     * that there is nothing to install and stops; otherwise assembles, installs, stops and
     * launches the app and follows its log. It does not prepare the tools.
     */
    method Run(m: Machine) returns (st: Status, printed: seq<string>)
      requires RunReady(m)
      modifies m
      ensures m.files == old(m.files)
      ensures preferred.None? && Listed(m, AdbOf(sdk.path)).devices.None? ==>
        st.Halted() && printed == [] && m.trace == old(m.trace) + Listed(m, AdbOf(sdk.path)).actions
      ensures preferred.None? && Listed(m, AdbOf(sdk.path)).devices == Some([]) ==>
        st == Ok && printed == [NoDevicesNotice] && m.trace == old(m.trace) + Listed(m, AdbOf(sdk.path)).actions
      ensures preferred.None? && Listed(m, AdbOf(sdk.path)).devices.Some? &&
              Listed(m, AdbOf(sdk.path)).devices != Some([]) ==>
        var device := Listed(m, AdbOf(sdk.path)).devices.value[0];
        device.archs != [] &&
        Deployed(m, AdbOf(sdk.path), project.folder, project.applicationId, device,
                 old(m.trace) + Listed(m, AdbOf(sdk.path)).actions, m.trace, st, printed)
      ensures preferred.Some? ==> preferred.value.archs != []
      ensures preferred.Some? ==>
        Deployed(m, AdbOf(sdk.path), project.folder, project.applicationId, preferred.value,
                 old(m.trace), m.trace, st, printed)
    {
      var adb := AdbOf(sdk.path);
      var device := preferred;
      if device.None? {
        var found, devices := ListDevices(m, adb);
        if found.Halted() {
          return found, [];
        }
        if devices == [] {
          return Ok, [NoDevicesNotice];
        }
        device := Some(devices[0]);
      }
      st, printed := Deploy(m, adb, project.folder, project.applicationId, device.value);
    }
  }

  // Each tool's `prepare()` as seen from `Droidy.prepare()`. The stage loop needs only what
  // a stage may change: the tool's path, which moves to nowhere but its default folder, and
  // for Java not even the files. Each stage's full outcome is its tool's `Prepare` contract;
  // keeping it out of these wrappers keeps it out of the stage loop's proof.

  method PrepareJava(m: Machine, java: JavaTool.Java) returns (st: Status)
    requires java.versions != []
    modifies m
    ensures m.files == old(m.files)
  {
    st := java.Prepare(m);
  }

  method PrepareGradle(m: Machine, gradle: GradleTool.Gradle) returns (st: Status)
    requires GradleTool.ReportReadable(m.exec(GradleTool.VersionCommand(gradle.Candidate())))
    modifies m, gradle`path
    ensures gradle.path == old(gradle.path) || gradle.path == gradle.DefaultPath()
  {
    st := gradle.Prepare(m);
  }

  method PrepareToolchain(m: Machine, toolchain: ToolchainTool.Toolchain) returns (st: Status)
    modifies m, toolchain`path
    ensures toolchain.path == old(toolchain.path) || toolchain.path == toolchain.DefaultPath()
  {
    st := toolchain.Prepare(m);
  }

  method PrepareNdk(m: Machine, ndk: NdkTool.Ndk) returns (st: Status)
    modifies m, ndk`path
    ensures ndk.path == old(ndk.path) || ndk.path == ndk.DefaultPath()
  {
    st := ndk.Prepare(m);
  }

  method PrepareSdk(m: Machine, sdk: SdkTool.Sdk, compileSdk: int) returns (st: Status)
    modifies m, sdk`path
    ensures sdk.path == old(sdk.path) || sdk.path == sdk.DefaultPath()
  {
    st := sdk.Prepare(m, compileSdk);
  }

  /** `init(buildDir:)`: the script starts from the project folder `projectDir` finds and
      exits with 1 when that folder holds no `Package.swift`. */
  method Open(m: Machine, workDir: string, buildDir: string, modern: bool) returns (st: Status, d: Droidy)
    ensures var dir := ProjectDir(workDir, buildDir, modern);
      d.projectFolder == dir && fresh(d) && !d.prepared && d.preferred == None &&
      st == (if Append(dir, "Package.swift") in m.files then Ok else Exit(1, WrongDirectoryNotice(dir)))
  {
    var dir := ProjectDir(workDir, buildDir, modern);
    d := new Droidy(m, dir);
    if !m.Exists(Append(dir, "Package.swift")) {
      return Exit(1, WrongDirectoryNotice(dir)), d;
    }
    st := Ok;
  }
}
