/**
 * `GradleW`: the Gradle wrapper of the generated Android project, which assembles the APK,
 * and the path at which an APK for an architecture and build type is found.
 */
module GradleWrapper {
  import opened Strings
  import opened Host
  import opened Paths
  import opened Archs

  /** `appBuildOutputsApkFolder` of the Android project in `projectFolder`. */
  function ApkFolder(projectFolder: string): string {
    Append(Append(Append(Append(projectFolder, "app"), "build"), "outputs"), "apk")
  }

  function BuildType(debug: bool): string {
    if debug then "debug" else "release"
  }

  function ApkName(arch: Arch, debug: bool): string {
    "app-" + Android(arch) + "-" + BuildType(debug) + ".apk"
  }

  /** `pathToAPK(arch:debug:)`. */
  function PathToApk(projectFolder: string, arch: Arch, debug: bool): string {
    Append(Append(ApkFolder(projectFolder), BuildType(debug)), ApkName(arch, debug))
  }

  /** `_pathToBin`. */
  function WrapperOf(projectFolder: string): seq<string> {
    [Append(projectFolder, "gradlew")]
  }

  function AssembleCommand(projectFolder: string): seq<string> {
    WrapperOf(projectFolder) + ["assembleDebug"]
  }

  function InstallCommand(projectFolder: string): seq<string> {
    WrapperOf(projectFolder) + ["installDebug"]
  }

  /** `assembleDebug()`: a failed run is fatal. */
  method AssembleDebug(m: Machine, projectFolder: string) returns (st: Status)
    modifies m
    ensures var r := m.exec(AssembleCommand(projectFolder));
      st == (if r.status != 0 then Fatal("\U{26D4}\U{FE0F} Unable to assemble debug with gradlew: " + r.stderr) else Ok)
    ensures m.files == old(m.files) && m.trace == old(m.trace) + [Ran(AssembleCommand(projectFolder))]
  {
    var r := m.Run(AssembleCommand(projectFolder));
    if r.status != 0 {
      return Fatal("\U{26D4}\U{FE0F} Unable to assemble debug with gradlew: " + r.stderr);
    }
    st := Ok;
  }

  /** `installDebug()`: a failed run is fatal. */
  method InstallDebug(m: Machine, projectFolder: string) returns (st: Status)
    modifies m
    ensures var r := m.exec(InstallCommand(projectFolder));
      st == (if r.status != 0 then Fatal("\U{26D4}\U{FE0F} Unable to install debug with gradlew: " + r.stderr) else Ok)
    ensures m.files == old(m.files) && m.trace == old(m.trace) + [Ran(InstallCommand(projectFolder))]
  {
    var r := m.Run(InstallCommand(projectFolder));
    if r.status != 0 {
      return Fatal("\U{26D4}\U{FE0F} Unable to install debug with gradlew: " + r.stderr);
    }
    st := Ok;
  }

  // ---------------------------------------------------------------- properties

  /** Appending to one folder: different names give different paths. */
  lemma AppendInjective(dir: string, x: string, y: string)
    requires Append(dir, x) == Append(dir, y)
    ensures x == y
  {
    var sep := if EndsWith(dir, "/") then "" else "/";
    assert Append(dir, x) == (dir + sep) + x && Append(dir, y) == (dir + sep) + y;
    assert x == Append(dir, x)[|dir + sep|..];
  }

  lemma NoSlashInName(arch: Arch, debug: bool)
    ensures ApkName(arch, debug) != [] && '/' !in ApkName(arch, debug)
  {
    var abi := Android(arch);
    assert '/' !in BuildType(debug);
  }

  /** The APK sits in `app/build/outputs/apk/<type>` of the project, under the name
      `app-<abi>-<type>.apk`. */
  lemma ApkUnderOutputs(projectFolder: string, arch: Arch, debug: bool)
    requires StartsWith(projectFolder, "/") && !EndsWith(projectFolder, "/")
    ensures var p := PathToApk(projectFolder, arch, debug);
      Parent(Parent(p)) == ApkFolder(projectFolder) &&
      LastComponent(Parent(p)) == (if debug then "debug" else "release") &&
      LastComponent(p) == "app-" + Android(arch) + "-" + (if debug then "debug" else "release") + ".apk"
  {
    var app := Append(projectFolder, "app");
    AppendKeepsForm(projectFolder, "app");
    var build := Append(app, "build");
    AppendKeepsForm(app, "build");
    var outputs := Append(build, "outputs");
    AppendKeepsForm(build, "outputs");
    var apk := Append(outputs, "apk");
    AppendKeepsForm(outputs, "apk");
    var typed := Append(apk, BuildType(debug));
    AppendKeepsForm(apk, BuildType(debug));
    AppendComponent(apk, BuildType(debug));
    NoSlashInName(arch, debug);
    AppendComponent(typed, ApkName(arch, debug));
  }

  /** With one build type, distinct architectures give distinct APK paths. */
  lemma DistinctArchsDistinctApks(projectFolder: string, a: Arch, b: Arch, debug: bool)
    requires a != b
    ensures PathToApk(projectFolder, a, debug) != PathToApk(projectFolder, b, debug)
  {
    if PathToApk(projectFolder, a, debug) == PathToApk(projectFolder, b, debug) {
      var typed := Append(ApkFolder(projectFolder), BuildType(debug));
      AppendInjective(typed, ApkName(a, debug), ApkName(b, debug));
    }
  }
}
