/**
 * `Toolchain`: finds the Swift-for-Android toolchain (the `toolchainPath` override, the
 * default folder, or a fresh download), checks the version its compiler front end reports,
 * and builds the product for one architecture or for every configured one.
 */
module ToolchainTool {
  import opened Wrappers
  import opened Strings
  import opened Host
  import opened Paths
  import opened Archs
  import opened Acquisition
  import SwiftTool

  /** `_binURL` of a toolchain rooted at `root`. */
  function BinFolder(root: string): string {
    Append(Append(root, "usr"), "bin")
  }

  function FrontendOf(root: string): string {
    Append(BinFolder(root), "swift-frontend")
  }

  function BuildBinOf(root: string): string {
    Append(BinFolder(root), "android-swift-build")
  }

  function CopyBinOf(root: string): string {
    Append(BinFolder(root), "android-copy-libs")
  }

  function VersionCommand(root: string): seq<string> {
    [FrontendOf(root), "--version"]
  }

  /** The reported version: the first word after the last " version ". */
  function Token(out: string): string {
    Split(Last(Split(out, " version ")), " ")[0]
  }

  /** The loose comparison of the check: either text contains the other. */
  predicate Accepts(token: string, version: string) {
    Contains(token, version) || Contains(version, token)
  }

  /** `checkVersion()`: a failed or silent run is fatal, and so is a version neither
      containing nor contained in the preferred one. */
  function Verdict(r: ProcessResult, version: string): (st: Status)
    ensures st.Ok? || st.Fatal?
    ensures st.Ok? <==> r.status == 0 && r.Stdout() != "" && Accepts(Token(r.Stdout()), version)
  {
    if r.status != 0 then Fatal(CheckFailed + ": " + r.stderr)
    else if r.Stdout() == "" then Fatal(CheckFailed)
    else if Accepts(Token(r.Stdout()), version) then Ok
    else Fatal("\U{26D4}\U{FE0F} Toolchain version " + Token(r.Stdout()) + " differs with preferred version " + version)
  }

  const CheckFailed: string := "\U{26D4}\U{FE0F} Unable to check toolchain version"

  /** What `prepare()` prints before giving up when no toolchain can be had. */
  function MissingNotice(url: string): string {
    MissingHead + url + MissingTail
  }

  const MissingHead: string :=
    "\U{26A0}\U{FE0F} Please set `toolchainPath` environment variable for the `Run` target which should point to swift android toolchain folder.\n"
    + "\U{1F30F} If you haven't downloaded toolchain yet\n"
    + "    \U{1F44D} Either enable automatic downloading by declaring `Droidy().automaticallyDownloadToolchain()`\n"
    + "    \U{1F481}\U{200D}\U{2642}\U{FE0F} Or get it manually from "
  const MissingTail: string :=
    "\n            and provide a link to downloaded archive by declaring `Droidy().localToolchainArchive(...)`"

  /** The binaries and targets of one `build` call. */
  datatype Job = Job(build: string, copy: string, product: string, projectPath: string)

  /** The compiler's output for every architecture of `todo` can be read by the error parser. */
  predicate Readable(m: Machine, job: Job, todo: seq<Arch>) {
    forall a | a in todo :: SwiftTool.OutputReadable(m.exec(SwiftTool.BuildCommand(job.build, a, job.product)))
  }

  /** `copyLibs` for `a` succeeds: both of its commands do, and the folder the second one
      names exists. */
  predicate Copied(m: Machine, job: Job, a: Arch)
    reads m`files
  {
    var where := m.exec(SwiftTool.ShowBinPathCommand(job.build, a));
    m.exec(SwiftTool.CopyLibsCommand(job.copy, a, job.projectPath)).status == 0 && where.status == 0 &&
    where.Stdout() != "" && SwiftTool.LibFolder(where) in m.files
  }

  /** The build of `a` succeeds: its run exits with 0. */
  predicate Compiled(m: Machine, job: Job, a: Arch) {
    m.exec(SwiftTool.BuildCommand(job.build, a, job.product)).status == 0
  }

  /** `a` is built and its libraries are copied. */
  predicate Built(m: Machine, job: Job, a: Arch)
    reads m`files
  {
    Compiled(m, job, a) && Copied(m, job, a)
  }

  predicate AllBuilt(m: Machine, job: Job, todo: seq<Arch>)
    reads m`files
  {
    forall k | 0 <= k < |todo| :: Built(m, job, todo[k])
  }

  /** The actions of building `a` and, when that succeeds, copying its libraries. */
  function ArchActions(m: Machine, job: Job, a: Arch): seq<Action> {
    [Ran(SwiftTool.BuildCommand(job.build, a, job.product))] +
    if !Compiled(m, job, a) then [] else CopyActions(m, job, a)
  }

  /** The actions of copying the libraries of `a`: just the copy when it fails. */
  function CopyActions(m: Machine, job: Job, a: Arch): seq<Action> {
    if m.exec(SwiftTool.CopyLibsCommand(job.copy, a, job.projectPath)).status != 0 then
      [Ran(SwiftTool.CopyLibsCommand(job.copy, a, job.projectPath))]
    else SwiftTool.CopySteps(job.copy, job.build, a, job.projectPath)
  }

  /** The actions of the `forEach` over `todo`, which ends with the first failure. */
  function BuildTrace(m: Machine, job: Job, todo: seq<Arch>): seq<Action>
    reads m`files
    decreases |todo|
  {
    if todo == [] then []
    else
      var init := todo[..|todo| - 1];
      if AllBuilt(m, job, init) then BuildTrace(m, job, init) + ArchActions(m, job, Last(todo))
      else BuildTrace(m, job, init)
  }

  /** The reference run when nothing fails: every architecture in order, each built and then
      its libraries copied. */
  function Steps(job: Job, todo: seq<Arch>): seq<Action>
    decreases |todo|
  {
    if todo == [] then []
    else [Ran(SwiftTool.BuildCommand(job.build, todo[0], job.product))]
         + SwiftTool.CopySteps(job.copy, job.build, todo[0], job.projectPath) + Steps(job, todo[1..])
  }

  class Toolchain {
    /** `_path`: the toolchain in use, empty until one is found. */
    var path: string
    var version: string
    var url: string
    /** `predownloadedArchivePath`. */
    var local: Option<string>
    var autoDownload: bool
    var archs: seq<Arch>
    /** The tool folder every default path lies in. */
    const folder: string

    /** `init(ndkPath:projectFolder:)`: the `toolchainPath` environment variable, or nothing. */
    constructor (env: map<string, string>, folder: string)
      ensures path == (if "toolchainPath" in env then env["toolchainPath"] else "")
      ensures version == "5.5.2" && archs == [Aarch64, Armv7, I686, X86_64]
      ensures url == ToolchainUrl && local == None && !autoDownload && this.folder == folder
    {
      path := if "toolchainPath" in env then env["toolchainPath"] else "";
      version := "5.5.2";
      url := ToolchainUrl;
      local := None;
      autoDownload := false;
      archs := [Aarch64, Armv7, I686, X86_64];
      this.folder := folder;
    }

    function DefaultPath(): string
      reads this`version
    {
      Append(folder, "swift-" + version + "-android")
    }

    method CheckVersion(m: Machine) returns (st: Status)
      modifies m
      ensures st == Verdict(m.exec(VersionCommand(path)), version)
      ensures m.files == old(m.files) && m.trace == old(m.trace) + [Ran(VersionCommand(path))]
    {
      var r := m.Run(VersionCommand(path));
      if r.status != 0 {
        return Fatal(CheckFailed + ": " + r.stderr);
      }
      var out := r.Stdout();
      if out == "" {
        return Fatal(CheckFailed);
      }
      var right := Last(Split(out, " version "));
      var left := Split(right, " ")[0];
      if !(Contains(left, version) || Contains(version, left)) {
        return Fatal("\U{26D4}\U{FE0F} Toolchain version " + left + " differs with preferred version " + version);
      }
      st := Ok;
    }

    /**
     * `prepare()`: the override is only checked; otherwise an existing default folder is
     * adopted and checked; otherwise, when allowed, `_download()` acquires the archive into
     * the default folder, adopts it and checks it; otherwise the tool gives up.
     */
    method Prepare(m: Machine) returns (st: Status)
      modifies m, this`path
      ensures path == old(path) || path == DefaultPath()
      ensures old(path) != "" ==>
        path == old(path) && st == Verdict(m.exec(VersionCommand(path)), version) &&
        m.files == old(m.files) && m.trace == old(m.trace) + [Ran(VersionCommand(path))]
      ensures old(path) == "" && DefaultPath() in old(m.files) ==>
        path == DefaultPath() && st == Verdict(m.exec(VersionCommand(path)), version) &&
        m.files == old(m.files) && m.trace == old(m.trace) + [Ran(VersionCommand(path))]
      ensures old(path) == "" && DefaultPath() !in old(m.files) && autoDownload ==>
        var a := AcquireOutcome(m, old(m.files), "toolchain archive", url, local, DefaultPath());
        m.files == a.files &&
        if a.status.Halted() then st == a.status && m.trace == old(m.trace) + a.actions
        else path == DefaultPath() && st == Verdict(m.exec(VersionCommand(path)), version) &&
             m.trace == old(m.trace) + a.actions + [Ran(VersionCommand(path))]
      ensures old(path) == "" && DefaultPath() !in old(m.files) && !autoDownload ==>
        st == Fatal(MissingNotice(url)) && path == old(path) &&
        m.files == old(m.files) && m.trace == old(m.trace)
    {
      if path == "" {
        if m.Exists(DefaultPath()) {
          path := DefaultPath();
          st := CheckVersion(m);
          return;
        }
        if autoDownload {
          st := Download(m);
          return;
        }
        return Fatal(MissingNotice(url));
      }
      st := CheckVersion(m);
    }

    /** `_download()`: acquires the archive into the default folder, adopts it, and checks
        the version. */
    method Download(m: Machine) returns (st: Status)
      modifies m, this`path
      ensures path == old(path) || path == DefaultPath()
      ensures var a := AcquireOutcome(m, old(m.files), "toolchain archive", url, local, DefaultPath());
        m.files == a.files &&
        if a.status.Halted() then st == a.status && m.trace == old(m.trace) + a.actions && path == old(path)
        else path == DefaultPath() && st == Verdict(m.exec(VersionCommand(path)), version) &&
             m.trace == old(m.trace) + a.actions + [Ran(VersionCommand(path))]
    {
      st := Acquire(m, "toolchain archive", "300Mb", url, local, DefaultPath());
      if st.Halted() {
        return;
      }
      path := DefaultPath();
      st := CheckVersion(m);
    }

    /** `archsToBuildFor`: the requested architecture, or every configured one. */
    function Targets(arch: Option<Arch>): (todo: seq<Arch>)
      reads this`archs
    {
      if arch.Some? then [arch.value] else archs
    }

    function JobFor(product: string, projectPath: string): Job
      reads this`path
    {
      Job(BuildBinOf(path), CopyBinOf(path), product, projectPath)
    }

    /** `build(_:_:arch:)`: builds and copies the libraries of each target in turn, stopping
        at the first failure. */
    method Build(m: Machine, product: string, projectPath: string, arch: Option<Arch>) returns (st: Status)
      requires Readable(m, JobFor(product, projectPath), Targets(arch))
      modifies m
      ensures var job := JobFor(product, projectPath);
        m.files == old(m.files) &&
        m.trace == old(m.trace) + BuildTrace(m, job, Targets(arch)) &&
        (st.Ok? <==> AllBuilt(m, job, Targets(arch)))
    {
      var todo := if arch.Some? then [arch.value] else archs;
      var job := Job(BuildBinOf(path), CopyBinOf(path), product, projectPath);
      st := BuildAll(m, job, todo);
    }
  }

  /** The `forEach` over `todo`, which ends with the first failure. */
  method BuildAll(m: Machine, job: Job, todo: seq<Arch>) returns (st: Status)
    requires Readable(m, job, todo)
    modifies m
    ensures m.files == old(m.files) && m.trace == old(m.trace) + BuildTrace(m, job, todo)
    ensures st.Ok? <==> AllBuilt(m, job, todo)
  {
    var i := 0;
    while i < |todo|
      invariant 0 <= i <= |todo|
      invariant AllBuilt(m, job, todo[..i])
      invariant m.files == old(m.files) && m.trace == old(m.trace) + BuildTrace(m, job, todo[..i])
    {
      TraceStepAt(m, job, todo, i);
      ghost var done := BuildTrace(m, job, todo[..i]);
      st := BuildArch(m, job, todo[i]);
      Assoc(old(m.trace), done, ArchActions(m, job, todo[i]));
      if st.Halted() {
        FailureStopsAt(m, job, todo, i);
        return;
      }
      i := i + 1;
    }
    TakeAll(todo);
    st := Ok;
  }

  /** One turn of the `forEach`: `swift.build`, then `swift.copyLibs` when the build succeeded. */
  method BuildArch(m: Machine, job: Job, a: Arch) returns (st: Status)
    requires SwiftTool.OutputReadable(m.exec(SwiftTool.BuildCommand(job.build, a, job.product)))
    modifies m
    ensures m.files == old(m.files) && m.trace == old(m.trace) + ArchActions(m, job, a)
    ensures st.Ok? <==> Built(m, job, a)
  {
    st := Compile(m, job, a);
    if st.Halted() {
      return;
    }
    st := Copy(m, job, a);
    Assoc(old(m.trace), [Ran(SwiftTool.BuildCommand(job.build, a, job.product))], CopyActions(m, job, a));
  }

  /** `swift.build` for `a`, seen only through whether it succeeded. */
  method Compile(m: Machine, job: Job, a: Arch) returns (st: Status)
    requires SwiftTool.OutputReadable(m.exec(SwiftTool.BuildCommand(job.build, a, job.product)))
    modifies m
    ensures m.files == old(m.files) && m.trace == old(m.trace) + [Ran(SwiftTool.BuildCommand(job.build, a, job.product))]
    ensures st.Ok? <==> Compiled(m, job, a)
  {
    st := SwiftTool.Build(m, job.build, a, job.product);
  }

  /** `swift.copyLibs` for `a`, seen only through whether it succeeded. */
  method Copy(m: Machine, job: Job, a: Arch) returns (st: Status)
    modifies m
    ensures m.files == old(m.files)
    ensures m.trace == old(m.trace) + CopyActions(m, job, a)
    ensures st.Ok? <==> Copied(m, job, a)
  {
    st := SwiftTool.CopyLibs(m, job.copy, job.build, a, job.projectPath);
  }

  const ToolchainUrl: string :=
    "https://github.com/vgorloff/swift-everywhere-toolchain/releases/download/1.0.78/swift-android-toolchain.tar.gz"

  // ---------------------------------------------------------------- properties

  /** One more architecture: its actions count only while every earlier one was built. */
  lemma TraceStep(m: Machine, job: Job, s: seq<Arch>, a: Arch)
    ensures BuildTrace(m, job, s + [a]) ==
            if AllBuilt(m, job, s) then BuildTrace(m, job, s) + ArchActions(m, job, a) else BuildTrace(m, job, s)
    ensures AllBuilt(m, job, s + [a]) <==> AllBuilt(m, job, s) && Built(m, job, a)
  {
    assert (s + [a])[..|s|] == s;
    if AllBuilt(m, job, s) && Built(m, job, a) {
      assert forall k | 0 <= k < |s + [a]| :: (s + [a])[k] == if k < |s| then s[k] else a;
    }
  }

  /** `TraceStep` at position `i` of `todo`. */
  lemma TraceStepAt(m: Machine, job: Job, todo: seq<Arch>, i: nat)
    requires i < |todo|
    ensures todo[i] in todo
    ensures BuildTrace(m, job, todo[..i + 1]) ==
            if AllBuilt(m, job, todo[..i]) then BuildTrace(m, job, todo[..i]) + ArchActions(m, job, todo[i])
            else BuildTrace(m, job, todo[..i])
    ensures AllBuilt(m, job, todo[..i + 1]) <==> AllBuilt(m, job, todo[..i]) && Built(m, job, todo[i])
  {
    assert todo[..i + 1] == todo[..i] + [todo[i]];
    TraceStep(m, job, todo[..i], todo[i]);
  }

  lemma TakeAll(todo: seq<Arch>)
    ensures todo[..|todo|] == todo
  {
  }

  /** Once an architecture has failed, the later ones add nothing. */
  lemma {:induction false} FailureStops(m: Machine, job: Job, s: seq<Arch>, t: seq<Arch>)
    requires !AllBuilt(m, job, s)
    ensures BuildTrace(m, job, s + t) == BuildTrace(m, job, s)
    decreases |t|
  {
    if t == [] {
      assert s + t == s;
    } else {
      var init := (s + t)[..|s + t| - 1];
      assert init == s + t[..|t| - 1];
      assert !AllBuilt(m, job, init) by {
        var k :| 0 <= k < |s| && !Built(m, job, s[k]);
        assert init[k] == s[k];
      }
      assert BuildTrace(m, job, s + t) == BuildTrace(m, job, init);
      FailureStops(m, job, s, t[..|t| - 1]);
    }
  }

  lemma FailureStopsAt(m: Machine, job: Job, todo: seq<Arch>, i: nat)
    requires i < |todo| && !AllBuilt(m, job, todo[..i + 1])
    ensures BuildTrace(m, job, todo) == BuildTrace(m, job, todo[..i + 1])
  {
    FailureStops(m, job, todo[..i + 1], todo[i + 1..]);
    assert todo[..i + 1] + todo[i + 1..] == todo;
  }

  /** When every architecture builds, `build` runs exactly the reference steps. */
  lemma {:induction false} AllBuiltRunsSteps(m: Machine, job: Job, todo: seq<Arch>)
    requires AllBuilt(m, job, todo)
    ensures BuildTrace(m, job, todo) == Steps(job, todo)
    decreases |todo|
  {
    if todo != [] {
      var init := todo[..|todo| - 1];
      var a := Last(todo);
      AllBuiltInit(m, job, todo);
      AllBuiltRunsSteps(m, job, init);
      BuiltActions(m, job, a);
      StepsSnoc(job, init, a);
      assert BuildTrace(m, job, todo) == BuildTrace(m, job, init) + ArchActions(m, job, a);
      FrontLast(todo);
    }
  }

  /** Every architecture built: so is every one but the last, and the last. */
  lemma AllBuiltInit(m: Machine, job: Job, todo: seq<Arch>)
    requires todo != [] && AllBuilt(m, job, todo)
    ensures AllBuilt(m, job, todo[..|todo| - 1]) && Built(m, job, Last(todo))
  {
    var init := todo[..|todo| - 1];
    assert forall k | 0 <= k < |init| :: init[k] == todo[k];
  }

  /** A built architecture runs what the reference run does for it. */
  lemma BuiltActions(m: Machine, job: Job, a: Arch)
    requires Built(m, job, a)
    ensures ArchActions(m, job, a) == Steps(job, [a])
  {
    assert [a][1..] == [];
  }

  lemma {:induction false} StepsSnoc(job: Job, s: seq<Arch>, a: Arch)
    ensures Steps(job, s + [a]) == Steps(job, s) + Steps(job, [a])
    decreases |s|
  {
    if s != [] {
      assert (s + [a])[1..] == s[1..] + [a];
      StepsSnoc(job, s[1..], a);
    } else {
      assert s + [a] == [a];
    }
  }

  /** `swift-frontend --version` prints "Swift version 5.5.2 (swift-5.5.2-RELEASE)" and a
      target line; the word after " version " is the one compared. */
  lemma ReportedToken(pre: string, v: string, rest: string, version: string)
    requires ' ' !in pre && ' ' !in v && !Contains(v + " " + rest, " version ")
    ensures var out := pre + " version " + v + " " + rest;
      Token(out) == v &&
      (Verdict(ProcessResult(0, [out], ""), version).Ok? <==> Accepts(v, version))
  {
    var t := v + " " + rest;
    var out := pre + " version " + v + " " + rest;
    assert out == pre + " version " + t;
    SplitAfter(pre, t, " version ");
    SplitNoOccurrence(t, " version ");
    assert Last(Split(out, " version ")) == t;
    SplitAfter(v, rest, " ");
    assert Join([out], "") == out;
  }

  /** The comparison is loose: a shorter reported version that starts the preferred one, or
      a longer one that starts with it, is accepted. */
  lemma PrefixAccepted(token: string, version: string)
    requires token != [] && version != []
    requires StartsWith(version, token) || StartsWith(token, version)
    ensures Accepts(token, version)
  {
    if StartsWith(version, token) {
      assert version[0..] == version;
    } else {
      assert token[0..] == token;
    }
  }
}
