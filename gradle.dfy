/**
 * `Gradle`: finds a Gradle installation (the `gradlePath` override, the default folder, or a
 * fresh download) and insists that `gradle --version` reports exactly the preferred version.
 */
module GradleTool {
  import opened Wrappers
  import opened Strings
  import opened Host
  import opened Paths
  import opened Acquisition

  /** The horizontal rule `gradle --version` draws around its title line: 60 dashes. */
  const Rule: string := "------------------------------" + "------------------------------"

  /** `_pathToBin` of an installation rooted at `root`. */
  function BinOf(root: string): string {
    Append(Append(root, "bin"), "gradle")
  }

  function VersionCommand(root: string): seq<string> {
    [BinOf(root), "--version"]
  }

  /** The installed version: the text between the first two rules, trimmed, with every
      "Gradle " removed. */
  function InstalledVersion(out: string): string
    requires |Split(out, Rule)| >= 2
  {
    RemoveAll(Trim(Split(out, Rule)[1], WhitespacesAndNewlines), "Gradle ")
  }

  /** A successful, non-empty report holds at least one rule (the source indexes `[1]`). */
  predicate ReportReadable(r: ProcessResult) {
    r.status == 0 && r.Stdout() != "" ==> |Split(r.Stdout(), Rule)| >= 2
  }

  /** `checkVersion()`: a failed or silent run is fatal; another version exits with 1. */
  function Verdict(r: ProcessResult, version: string): (st: Status)
    requires ReportReadable(r)
    ensures st.Ok? <==> r.status == 0 && r.Stdout() != "" && InstalledVersion(r.Stdout()) == version
    ensures st.Exit? ==> st.code == 1 && r.status == 0
  {
    if r.status != 0 then Fatal("\U{26D4}\U{FE0F} Unable to check gradle version: " + r.stderr)
    else if r.Stdout() == "" then Fatal("\U{26D4}\U{FE0F} Unable to check gradle version")
    else if version == InstalledVersion(r.Stdout()) then Ok
    else Exit(1, "\U{26D4}\U{FE0F} Preferred gradle version " + version + " doesn't match installed version "
                 + InstalledVersion(r.Stdout()))
  }

  /** What `prepare()` prints before giving up when no installation can be had. */
  function MissingNotice(url: string): string {
    MissingHead + url + MissingTail
  }

  const MissingHead: string :=
    "\U{26A0}\U{FE0F} Please set `gradlePath` environment variable for the `Run` target which should point to gradle folder.\n"
    + "\U{1F30F} If you haven't downloaded Gradle yet\n"
    + "    \U{1F44D} Either enable automatic downloading by declaring `Droidy().automaticallyDownloadGradle()`\n"
    + "    \U{1F481}\U{200D}\U{2642}\U{FE0F} Or get it manually from "
  const MissingTail: string :=
    "\n            and provide a link to downloaded archive by declaring `Droidy().localGradleArchive(...)`"

  class Gradle {
    /** `_path`: the installation in use, empty until one is found. */
    var path: string
    var version: string
    var url: string
    /** `predownloadedArchivePath`. */
    var local: Option<string>
    var autoDownload: bool
    /** The tool folder every default path lies in. */
    const folder: string

    /** `init()`: the `gradlePath` environment variable, or nothing. */
    constructor (env: map<string, string>, folder: string)
      ensures path == (if "gradlePath" in env then env["gradlePath"] else "")
      ensures version == "7.3.3" && url == "https://services.gradle.org/distributions/gradle-7.3.3-bin.zip"
      ensures local == None && !autoDownload && this.folder == folder
    {
      path := if "gradlePath" in env then env["gradlePath"] else "";
      version := "7.3.3";
      url := "https://services.gradle.org/distributions/gradle-7.3.3-bin.zip";
      local := None;
      autoDownload := false;
      this.folder := folder;
    }

    function DefaultPath(): string
      reads this
    {
      Append(folder, "gradle-" + version)
    }

    /** The installation `prepare()` will check: the override, or else the default folder. */
    function Candidate(): string
      reads this
    {
      if path != "" then path else DefaultPath()
    }

    method CheckVersion(m: Machine) returns (st: Status)
      requires ReportReadable(m.exec(VersionCommand(path)))
      modifies m
      ensures st == Verdict(m.exec(VersionCommand(path)), version)
      ensures m.files == old(m.files) && m.trace == old(m.trace) + [Ran(VersionCommand(path))]
    {
      var r := m.Run(VersionCommand(path));
      if r.status != 0 {
        return Fatal("\U{26D4}\U{FE0F} Unable to check gradle version: " + r.stderr);
      }
      var out := r.Stdout();
      if out == "" {
        return Fatal("\U{26D4}\U{FE0F} Unable to check gradle version");
      }
      var installed := RemoveAll(Trim(Split(out, Rule)[1], WhitespacesAndNewlines), "Gradle ");
      if version != installed {
        return Exit(1, "\U{26D4}\U{FE0F} Preferred gradle version " + version + " doesn't match installed version "
                       + installed);
      }
      st := Ok;
    }

    /**
     * `prepare()`: the override is only checked; otherwise an existing default folder is
     * adopted and checked; otherwise, when allowed, the archive is acquired into the default
     * folder, which is adopted and checked; otherwise the tool gives up.
     */
    method Prepare(m: Machine) returns (st: Status)
      requires ReportReadable(m.exec(VersionCommand(Candidate())))
      modifies m, this`path
      ensures path == old(path) || path == DefaultPath()
      ensures old(path) != "" ==>
        path == old(path) && st == Verdict(m.exec(VersionCommand(path)), version) &&
        m.files == old(m.files) && m.trace == old(m.trace) + [Ran(VersionCommand(path))]
      ensures old(path) == "" && DefaultPath() in old(m.files) ==>
        path == DefaultPath() && st == Verdict(m.exec(VersionCommand(path)), version) &&
        m.files == old(m.files) && m.trace == old(m.trace) + [Ran(VersionCommand(path))]
      ensures old(path) == "" && DefaultPath() !in old(m.files) && autoDownload ==>
        var a := AcquireOutcome(m, old(m.files), "gradle archive", url, local, DefaultPath());
        m.files == a.files &&
        if a.status.Halted() then st == a.status && m.trace == old(m.trace) + a.actions
        else path == DefaultPath() && st == Verdict(m.exec(VersionCommand(path)), version) &&
             m.trace == old(m.trace) + a.actions + [Ran(VersionCommand(path))]
      ensures old(path) == "" && DefaultPath() !in old(m.files) && !autoDownload ==>
        st == Fatal(MissingNotice(url)) && path == old(path) &&
        m.files == old(m.files) && m.trace == old(m.trace)
    {
      if path == "" {
        if m.Exists(DefaultPath()) {
          path := DefaultPath();
          st := CheckVersion(m);
          return;
        }
        if autoDownload {
          st := DownloadAndCheck(m);
          return;
        }
        return Fatal(MissingNotice(url));
      }
      st := CheckVersion(m);
    }

    /** The automatic branch of `prepare()`: `_download()`, then the version check once the
        archive is in place. */
    method DownloadAndCheck(m: Machine) returns (st: Status)
      requires ReportReadable(m.exec(VersionCommand(DefaultPath())))
      modifies m, this`path
      ensures var a := AcquireOutcome(m, old(m.files), "gradle archive", url, local, DefaultPath());
        m.files == a.files &&
        if a.status.Halted() then st == a.status && m.trace == old(m.trace) + a.actions && path == old(path)
        else path == DefaultPath() && st == Verdict(m.exec(VersionCommand(path)), version) &&
             m.trace == old(m.trace) + a.actions + [Ran(VersionCommand(path))]
    {
      st := Download(m);
      if st.Halted() {
        return;
      }
      st := CheckVersion(m);
    }

    /** `_download()`: acquires the archive into the default folder and adopts it. */
    method Download(m: Machine) returns (st: Status)
      modifies m, this`path
      ensures var a := AcquireOutcome(m, old(m.files), "gradle archive", url, local, DefaultPath());
        st == a.status && m.files == a.files && m.trace == old(m.trace) + a.actions &&
        path == (if a.status.Ok? then DefaultPath() else old(path))
    {
      st := Acquire(m, "gradle archive", "100Mb", url, local, DefaultPath());
      if st.Ok? {
        path := DefaultPath();
      }
    }
  }

  // ---------------------------------------------------------------- properties

  /** `gradle --version` prints its title between two rules, as in
      "\n<rule>\nGradle 7.3.3\n<rule>\n\nBuild time: ...". Whatever surrounds it, the
      version read back is the one in the title, and the check accepts exactly that one. */
  lemma ReportNamesVersion(pre: string, lead: string, v: string, trail: string, post: string, version: string)
    requires '-' !in pre
    requires forall i | 0 <= i < |lead| :: InClass(lead[i], WhitespacesAndNewlines) && lead[i] != '-'
    requires forall i | 0 <= i < |trail| :: InClass(trail[i], WhitespacesAndNewlines) && trail[i] != '-'
    requires v != [] && !InClass(v[|v| - 1], WhitespacesAndNewlines) && '-' !in v && 'G' !in v
    ensures var out := pre + Rule + lead + "Gradle " + v + trail + Rule + post;
      |Split(out, Rule)| >= 2 && InstalledVersion(out) == v &&
      (Verdict(ProcessResult(0, [out], ""), version).Ok? <==> v == version)
  {
    var title := "Gradle " + v;
    var mid := lead + title + trail;
    var out := pre + Rule + lead + "Gradle " + v + trail + Rule + post;
    NoDashInTitle(lead, v, trail);
    assert out == pre + Rule + mid + Rule + post;
    TitleBetweenRules(pre, mid, post);
    assert title[|title| - 1] == v[|v| - 1];
    TrimPadding(lead, title, trail, WhitespacesAndNewlines);
    StripTitle(v);
    assert InstalledVersion(out) == RemoveAll(Trim(mid, WhitespacesAndNewlines), "Gradle ") == v;
    var r := ProcessResult(0, [out], "");
    Stdout1(out);
    assert r.Stdout() == out && |out| > 0;
  }

  lemma NoDashInTitle(lead: string, v: string, trail: string)
    requires forall i | 0 <= i < |lead| :: lead[i] != '-'
    requires forall i | 0 <= i < |trail| :: trail[i] != '-'
    requires '-' !in v
    ensures '-' !in lead + "Gradle " + v + trail
  {
    var title := "Gradle " + v;
    var mid := lead + title + trail;
    forall i | 0 <= i < |mid| ensures mid[i] != '-' {
      if i < |lead| {
      } else if i < |lead| + 7 {
        assert mid[i] == title[i - |lead|];
      } else if i < |lead| + |title| {
        assert mid[i] == v[i - |lead| - 7];
      } else {
        assert mid[i] == trail[i - |lead| - |title|];
      }
    }
  }

  /** The text between the first two rules is the second part of the split. */
  lemma TitleBetweenRules(pre: string, mid: string, post: string)
    requires '-' !in pre && '-' !in mid
    ensures var parts := Split(pre + Rule + mid + Rule + post, Rule);
      |parts| >= 2 && parts[1] == mid
  {
    assert Rule[0] == '-';
    SplitAfter(mid, post, Rule);
    assert pre + Rule + mid + Rule + post == pre + Rule + (mid + Rule + post);
    SplitAfter(pre, mid + Rule + post, Rule);
  }

  lemma StripTitle(v: string)
    requires 'G' !in v
    ensures RemoveAll("Gradle " + v, "Gradle ") == v
  {
    assert "Gradle " + v == [] + "Gradle " + v;
    SplitAfter([], v, "Gradle ");
    SplitWhole(v, "Gradle ");
    assert Split("Gradle " + v, "Gradle ") == ["", v];
    assert Join(["", v], "") == "" + Join([v], "");
  }

  lemma Stdout1(out: string)
    ensures ProcessResult(0, [out], "").Stdout() == out
  {
    assert Join([out], "") == out;
  }
}
