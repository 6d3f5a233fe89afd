/**
 * `SDK`: finds the Android SDK (the `sdkPath` override, the default folder, or a fresh
 * download of the command-line tools), accepts every licence and installs the platform
 * tools, the platform and the build tools matching the project's `compileSdkVersion`.
 */
module SdkTool {
  import opened Wrappers
  import opened Strings
  import opened Host
  import opened Paths
  import opened Extractor
  import opened Acquisition

  const SdkUrl: string := "https://dl.google.com/android/repository/commandlinetools-mac-7583922_latest.zip"

  /** `sdkFolder` of an SDK rooted at `root`. */
  function SdkRoot(root: string): string {
    Append(root, "sdk")
  }

  /** The `sdkmanager` of `cmdLineToolsBinFolder`. */
  function ManagerOf(root: string): string {
    Append(Append(Append(SdkRoot(root), "cmdline-tools"), "bin"), "sdkmanager")
  }

  function PlatformToolsOf(root: string): string {
    Append(SdkRoot(root), "platform-tools")
  }

  /** `buildToolsVersionToInstall`. */
  function BuildToolsVersion(compileSdk: int): string {
    IntToString(compileSdk) + ".0.0"
  }

  function LicensesCommand(root: string): seq<string> {
    ["/usr/bin/env", "bash", "-c", "yes | " + ManagerOf(root) + " --licenses --sdk_root=" + SdkRoot(root)]
  }

  function InstallCommand(root: string, compileSdk: int): seq<string> {
    ["/usr/bin/env", "bash", "-c",
     "yes | " + ManagerOf(root) + " --install \"platforms;android-" + IntToString(compileSdk)
     + "\" \"platform-tools\" \"build-tools;" + BuildToolsVersion(compileSdk) + "\" --sdk_root=" + SdkRoot(root)]
  }

  function UpdateCommand(root: string): seq<string> {
    [ManagerOf(root), "--update", "--sdk_root=" + SdkRoot(root)]
  }

  const LicensesFailed: string := "\U{26D4}\U{FE0F} Unable to accept cli licenses: "
  const InstallFailed: string := "\U{26D4}\U{FE0F} Unable to install SDK build tools: "
  const MoveFailed: string := "\U{26D4}\U{FE0F} Unable to move android SDK files into the right path"
  const NoUpdatesPhrase: string := "No updates available"
  const UpdatedReport: string := "\U{1F44D} SDK build tools has been updated"
  const UpToDateReport: string := "\U{1F44D} SDK build tools are up-to-date"

  /** What `prepare()` prints before giving up when no SDK can be had. */
  function MissingNotice(url: string): string {
    MissingHead + url + MissingTail
  }

  const MissingHead: string :=
    "\U{26A0}\U{FE0F} Please set `sdkPath` environment variable for the `Run` target which should point to SDK folder.\n"
    + "\U{1F30F} If you haven't downloaded SDK yet\n"
    + "    \U{1F44D} Either enable automatic downloading by declaring `Droidy().automaticallyDownloadSDK()`\n"
    + "    \U{1F916} Or install Android Studio and SDK will be installed with it into ~/Library/Android\n"
    + "    \U{1F481}\U{200D}\U{2642}\U{FE0F} Or get command line tools manually from "
  const MissingTail: string :=
    "\n            and provide a link to downloaded archive by declaring `Droidy().localSDKArchive(...)`"

  // ---------------------------------------------------------------- the update report

  /** Some chunk of the output, read on its own, says that nothing needs updating. */
  predicate SawNoUpdates(chunks: seq<string>) {
    exists k | 0 <= k < |chunks| :: Contains(chunks[k], NoUpdatesPhrase)
  }

  /** The readability handler of `updatePlatforforms()`: the flag is raised by the first chunk
      holding the phrase and never lowered. */
  method ScanChunks(chunks: seq<string>) returns (noUpdates: bool)
    ensures noUpdates <==> SawNoUpdates(chunks)
  {
    noUpdates := false;
    for i := 0 to |chunks|
      invariant noUpdates <==> exists k | 0 <= k < i :: Contains(chunks[k], NoUpdatesPhrase)
    {
      if Contains(chunks[i], NoUpdatesPhrase) {
        noUpdates := true;
      }
    }
  }

  /** A phrase seen in one chunk is in the whole output. */
  lemma {:induction false} ChunkSightingInOutput(chunks: seq<string>)
    requires SawNoUpdates(chunks)
    ensures Contains(Join(chunks, ""), NoUpdatesPhrase)
    decreases |chunks|
  {
    var k :| 0 <= k < |chunks| && Contains(chunks[k], NoUpdatesPhrase);
    if k == 0 {
      var i :| 0 <= i <= |chunks[0]| && StartsWith(chunks[0][i..], NoUpdatesPhrase);
      if |chunks| > 1 {
        var whole := Join(chunks, "");
        assert whole == chunks[0] + Join(chunks[1..], "");
        assert whole[i..][..|NoUpdatesPhrase|] == chunks[0][i..][..|NoUpdatesPhrase|];
        assert StartsWith(whole[i..], NoUpdatesPhrase);
      }
    } else {
      assert chunks[1..][k - 1] == chunks[k];
      ChunkSightingInOutput(chunks[1..]);
      var rest := Join(chunks[1..], "");
      var i :| 0 <= i <= |rest| && StartsWith(rest[i..], NoUpdatesPhrase);
      var whole := Join(chunks, "");
      assert whole == chunks[0] + rest;
      assert whole[|chunks[0]| + i..] == rest[i..];
    }
  }

  /** The phrase is looked for chunk by chunk: cut across two reads, it goes unnoticed and
      the report says the tools were updated. */
  lemma PhraseAcrossChunksMissed()
    ensures var chunks := ["No updates", " available"];
      !SawNoUpdates(chunks) && Contains(Join(chunks, ""), NoUpdatesPhrase)
  {
    var chunks := ["No updates", " available"];
    assert Join(chunks, "") == NoUpdatesPhrase;
    assert StartsWith(NoUpdatesPhrase[0..], NoUpdatesPhrase);
    forall k | 0 <= k < |chunks| ensures !Contains(chunks[k], NoUpdatesPhrase) {
      assert |chunks[k]| < |NoUpdatesPhrase|;
    }
  }

  // ---------------------------------------------------------------- what the steps do

  /** `acceptAllLicenses()` followed by `installPlatformTools()` for the SDK rooted at `root`,
      starting from the paths `files`. Nothing is installed when the platform tools exist. */
  function SetupOutcome(m: Machine, files: set<string>, root: string, compileSdk: int): (o: Outcome)
    ensures o.files == files && o.actions != [] && o.actions[0] == Ran(LicensesCommand(root))
    ensures o.status.Ok? || o.status.Fatal?
    ensures o.status.Ok? <==>
      m.exec(LicensesCommand(root)).status == 0 &&
      (PlatformToolsOf(root) in files ||
       (m.exec(InstallCommand(root, compileSdk)).status == 0 && m.exec(UpdateCommand(root)).status == 0))
    ensures PlatformToolsOf(root) in files ==> |o.actions| == 1
  {
    var licenses := LicensesCommand(root);
    var install := InstallCommand(root, compileSdk);
    var update := UpdateCommand(root);
    if m.exec(licenses).status != 0 then
      Outcome(Fatal(LicensesFailed + m.exec(licenses).stderr), [Ran(licenses)], files)
    else if PlatformToolsOf(root) in files then Outcome(Ok, [Ran(licenses)], files)
    else if m.exec(install).status != 0 then
      Outcome(Fatal(InstallFailed + m.exec(install).stderr), [Ran(licenses), Ran(install)], files)
    else if m.exec(update).status != 0 then
      Outcome(Fatal(InstallFailed + m.exec(update).stderr), [Ran(licenses), Ran(install), Ran(update)], files)
    else Outcome(Ok, [Ran(licenses), Ran(install), Ran(update)], files)
  }

  /** The folder the command-line tools are unpacked into, and where they must end up. */
  function UnpackedTools(folder: string): string {
    Append(folder, "cmdline-tools")
  }

  function PlacedTools(folder: string): string {
    Append(SdkRoot(Append(folder, "android")), "cmdline-tools")
  }

  /** `_download()` from the paths `files`: acquire the archive into the default folder, create
      the `sdk` folder, and move the unpacked command-line tools into it. */
  function ToolsOutcome(m: Machine, files: set<string>, url: string, local: Option<string>, folder: string): (o: Outcome)
    ensures var a := AcquireOutcome(m, files, "SDK-cli archive", url, local, Append(folder, "android"));
      a.status.Halted() ==> o == a
    ensures o.status.Ok? ==>
      SdkRoot(Append(folder, "android")) in o.files && PlacedTools(folder) in o.files &&
      (UnpackedTools(folder) != PlacedTools(folder) ==> UnpackedTools(folder) !in o.files)
  {
    var root := Append(folder, "android");
    var a := AcquireOutcome(m, files, "SDK-cli archive", url, local, root);
    if a.status.Halted() then a
    else
      var created := a.files + {SdkRoot(root)};
      var from, to := UnpackedTools(folder), PlacedTools(folder);
      var moved := from in created && to !in created;
      Outcome(if moved then Ok else Fatal(MoveFailed),
              a.actions + [Created(SdkRoot(root)), Moved(from, to)],
              if moved then created - {from} + {to} else created)
  }

  // ---------------------------------------------------------------- the tool

  class Sdk {
    /** `_path`: the SDK in use, empty until one is found. */
    var path: string
    var url: string
    /** `predownloadedArchivePath`. */
    var local: Option<string>
    var autoDownload: bool
    /** The tool folder the default path lies in. */
    const folder: string

    /** `init(_:)`: the `sdkPath` environment variable, or nothing. */
    constructor (env: map<string, string>, folder: string)
      ensures path == (if "sdkPath" in env then env["sdkPath"] else "")
      ensures url == SdkUrl && local == None && !autoDownload && this.folder == folder
    {
      path := if "sdkPath" in env then env["sdkPath"] else "";
      url := SdkUrl;
      local := None;
      autoDownload := false;
      this.folder := folder;
    }

    function DefaultPath(): string {
      Append(folder, "android")
    }

    /**
     * `prepare()` for a project compiled against `compileSdk`: the override, or else an
     * existing default folder, or else, when allowed, a fresh download into the default
     * folder, is set up; otherwise the tool gives up.
     */
    method Prepare(m: Machine, compileSdk: int) returns (st: Status)
      modifies m, this`path
      ensures old(path) != "" ==>
        var s := SetupOutcome(m, old(m.files), path, compileSdk);
        path == old(path) && st == s.status && m.files == s.files && m.trace == old(m.trace) + s.actions
      ensures old(path) == "" && DefaultPath() in old(m.files) ==>
        var s := SetupOutcome(m, old(m.files), DefaultPath(), compileSdk);
        path == DefaultPath() && st == s.status && m.files == s.files && m.trace == old(m.trace) + s.actions
      ensures old(path) == "" && DefaultPath() !in old(m.files) && autoDownload ==>
        var d := ToolsOutcome(m, old(m.files), url, local, folder);
        if d.status.Halted() then
          st == d.status && path == old(path) && m.files == d.files && m.trace == old(m.trace) + d.actions
        else
          var s := SetupOutcome(m, d.files, DefaultPath(), compileSdk);
          path == DefaultPath() && st == s.status && m.files == s.files &&
          m.trace == old(m.trace) + d.actions + s.actions
      ensures old(path) == "" && DefaultPath() !in old(m.files) && !autoDownload ==>
        st == Fatal(MissingNotice(url)) && path == old(path) &&
        m.files == old(m.files) && m.trace == old(m.trace)
    {
      if path == "" {
        if m.Exists(DefaultPath()) {
          path := DefaultPath();
          st := Setup(m, path, compileSdk);
          return;
        }
        if autoDownload {
          st := Download(m);
          if st.Halted() {
            return;
          }
          st := Setup(m, path, compileSdk);
          return;
        }
        return Fatal(MissingNotice(url));
      }
      st := Setup(m, path, compileSdk);
    }

    /** `_download()`. */
    method Download(m: Machine) returns (st: Status)
      modifies m, this`path
      ensures var d := ToolsOutcome(m, old(m.files), url, local, folder);
        st == d.status && m.files == d.files && m.trace == old(m.trace) + d.actions &&
        path == (if d.status.Ok? then DefaultPath() else old(path))
    {
      ghost var files0, trace0 := m.files, m.trace;
      st := Acquire(m, "SDK-cli archive", "100Mb", url, local, DefaultPath());
      if st.Halted() {
        return;
      }
      ghost var a := AcquireOutcome(m, files0, "SDK-cli archive", url, local, DefaultPath());
      var sdk := SdkRoot(Append(folder, "android"));
      m.CreateDirectory(sdk);
      var moved := m.Move(UnpackedTools(folder), PlacedTools(folder));
      assert m.trace == trace0 + (a.actions + [Created(sdk), Moved(UnpackedTools(folder), PlacedTools(folder))]);
      if !moved {
        return Fatal(MoveFailed);
      }
      path := DefaultPath();
    }
  }

  /** The licences, then the platform tools, for the SDK rooted at `root`. */
  method Setup(m: Machine, root: string, compileSdk: int) returns (st: Status)
    modifies m
    ensures var s := SetupOutcome(m, old(m.files), root, compileSdk);
      st == s.status && m.files == s.files && m.trace == old(m.trace) + s.actions
  {
    st := AcceptAllLicenses(m, root);
    if st.Halted() {
      return;
    }
    st := InstallPlatformTools(m, root, compileSdk);
  }

  /** `acceptAllLicenses()`. */
  method AcceptAllLicenses(m: Machine, root: string) returns (st: Status)
    modifies m
    ensures var r := m.exec(LicensesCommand(root));
      st == (if r.status != 0 then Fatal(LicensesFailed + r.stderr) else Ok)
    ensures m.files == old(m.files) && m.trace == old(m.trace) + [Ran(LicensesCommand(root))]
  {
    var r := m.Run(LicensesCommand(root));
    if r.status != 0 {
      return Fatal(LicensesFailed + r.stderr);
    }
    st := Ok;
  }

  /** `installPlatformTools()`: nothing when the platform tools exist; otherwise the install,
      then the update. */
  method InstallPlatformTools(m: Machine, root: string, compileSdk: int) returns (st: Status)
    modifies m
    ensures PlatformToolsOf(root) in old(m.files) ==> st == Ok && m.trace == old(m.trace)
    ensures PlatformToolsOf(root) !in old(m.files) ==>
      var r := m.exec(InstallCommand(root, compileSdk));
      var u := m.exec(UpdateCommand(root));
      (r.status != 0 ==> st == Fatal(InstallFailed + r.stderr) &&
                         m.trace == old(m.trace) + [Ran(InstallCommand(root, compileSdk))]) &&
      (r.status == 0 ==> st == (if u.status != 0 then Fatal(InstallFailed + u.stderr) else Ok) &&
                         m.trace == old(m.trace) + [Ran(InstallCommand(root, compileSdk)), Ran(UpdateCommand(root))])
    ensures m.files == old(m.files)
  {
    if m.Exists(PlatformToolsOf(root)) {
      return Ok;
    }
    var r := m.Run(InstallCommand(root, compileSdk));
    if r.status != 0 {
      return Fatal(InstallFailed + r.stderr);
    }
    var report;
    st, report := UpdatePlatforms(m, root);
  }

  /** `updatePlatforforms()`: a failed update is fatal; otherwise the report says whether some
      chunk of the output announced that nothing needed updating. */
  method UpdatePlatforms(m: Machine, root: string) returns (st: Status, report: string)
    modifies m
    ensures var r := m.exec(UpdateCommand(root));
      st == (if r.status != 0 then Fatal(InstallFailed + r.stderr) else Ok) &&
      (st.Ok? ==> report == if SawNoUpdates(r.chunks) then UpToDateReport else UpdatedReport)
    ensures m.files == old(m.files) && m.trace == old(m.trace) + [Ran(UpdateCommand(root))]
  {
    var r := m.Run(UpdateCommand(root));
    var noUpdates := ScanChunks(r.chunks);
    report := "";
    if r.status != 0 {
      return Fatal(InstallFailed + r.stderr), report;
    }
    st := Ok;
    report := if noUpdates then UpToDateReport else UpdatedReport;
  }

  // ---------------------------------------------------------------- properties

  /** The command-line tools archive, a `.zip`, is unpacked into the tool folder itself, where
      `_download()` then looks for `cmdline-tools`. */
  lemma ToolsUnpackedIntoFolder(folder: string, archive: string)
    requires StartsWith(folder, "/") && !EndsWith(folder, "/")
    requires EndsWith(LastComponent(archive), ".zip") && !EndsWith(LastComponent(archive), ".tar.gz")
    ensures PlanFor(archive, Append(folder, "android")).value.args == [archive, "-d", folder]
    ensures Parent(UnpackedTools(folder)) == folder
  {
    AppendComponent(folder, "android");
    AppendComponent(folder, "cmdline-tools");
  }

  /** A present SDK with its platform tools is set up by accepting the licences alone. */
  lemma PresentPlatformToolsOnlyLicenses(m: Machine, files: set<string>, root: string, compileSdk: int)
    requires PlatformToolsOf(root) in files
    ensures var o := SetupOutcome(m, files, root, compileSdk);
      o.actions == [Ran(LicensesCommand(root))] && (o.status.Ok? <==> m.exec(LicensesCommand(root)).status == 0)
  {
  }

  /** The build tools installed match the platform: the major number of
      `buildToolsVersionToInstall` reads back as `compileSdkVersion`. */
  lemma BuildToolsMatchPlatform(compileSdk: int)
    requires MinInt <= compileSdk <= MaxInt
    ensures ParseInt(Split(BuildToolsVersion(compileSdk), ".")[0]) == Some(compileSdk)
  {
    var n := IntToString(compileSdk);
    assert '.' !in n by {
      forall i | 0 <= i < |n| ensures n[i] != '.' {
        assert n[i] == '-' || IsDigit(n[i]);
      }
    }
    assert BuildToolsVersion(compileSdk) == n + "." + "0.0";
    SplitAfter(n, "0.0", ".");
    ParseIntToString(compileSdk);
  }
}
