/**
 * `Java`: insists that a `java` is on the search path and that what `java -version` writes
 * to standard error mentions one of the accepted versions.
 */
module JavaTool {
  import opened Strings
  import opened Host

  /** The run of `java -version` through the path `which` found. */
  function VersionCommand(javaPath: string): seq<string> {
    [javaPath, "-version"]
  }

  /** Some accepted version occurs in `text`. */
  predicate Mentions(text: string, versions: seq<string>) {
    exists k | 0 <= k < |versions| :: Contains(text, versions[k])
  }

  /** The `for version in versions` loop: stops at the first version `text` contains. */
  method MentionsAny(text: string, versions: seq<string>) returns (found: bool)
    ensures found <==> Mentions(text, versions)
  {
    for i := 0 to |versions|
      invariant forall k | 0 <= k < i :: !Contains(text, versions[k])
    {
      if Contains(text, versions[i]) {
        return true;
      }
    }
    found := false;
  }

  const CheckFailed: string := "\U{26D4}\U{FE0F} Unable to check java version"

  /** The end of `checkVersion()` once `java -version` ran: every failure exits with 1, and the
      version is accepted exactly when standard error mentions one of `versions`. */
  function Verdict(r: ProcessResult, versions: seq<string>): (st: Status)
    requires versions != []
    ensures st.Ok? || (st.Exit? && st.code == 1)
    ensures st.Ok? <==> r.status == 0 && r.stderr != "" && Mentions(r.stderr, versions)
  {
    if r.status != 0 then Exit(1, CheckFailed + ": " + r.stderr)
    else if r.stderr == "" then Exit(1, CheckFailed)
    else if Mentions(r.stderr, versions) then Ok
    else Exit(1, "\U{26D4}\U{FE0F} Java version " + r.stderr + " differs with preferred version " + versions[0])
  }

  /** What `prepare()` prints before exiting when no `java` is found. */
  function MissingNotice(version: string): string {
    "\U{26A0}\U{FE0F} Java is not installed but it is required. Please install java v" + version + " or higher.\n"
    + MissingTail
  }

  const MissingTail: string :=
    "    \U{1F44D} Either enable automatic installation by declaring `Droidy().automaticallyInstallJava()`\n"
    + "    \U{1F481}\U{200D}\U{2642}\U{FE0F} Or you could install it manually e.g. using brew:\n"
    + "        brew tap adoptopenjdk/openjdk\n"
    + "        brew install --cask adoptopenjdk8"

  class Java {
    const versions: seq<string>
    var autoInstall: bool

    constructor ()
      ensures versions == ["17"] && !autoInstall
    {
      versions := ["17"];
      autoInstall := false;
    }

    /** `checkVersion()`: `java` is looked up again and run with `-version`. */
    method CheckVersion(m: Machine) returns (st: Status)
      requires versions != []
      modifies m
      ensures var w := m.exec(WhichCommand("java"));
        (w.status != 0 ==> st == Fatal(NotFound("java")) && m.trace == old(m.trace) + [Ran(WhichCommand("java"))]) &&
        (w.status == 0 && w.Stdout() == "" ==>
           st == Exit(1, NotFound("java")) && m.trace == old(m.trace) + [Ran(WhichCommand("java"))]) &&
        (w.status == 0 && w.Stdout() != "" ==>
           var run := VersionCommand(Trim(w.Stdout(), WhitespacesAndNewlines));
           st == Verdict(m.exec(run), versions) && m.trace == old(m.trace) + [Ran(WhichCommand("java")), Ran(run)])
      ensures m.files == old(m.files)
    {
      var found, javaPath := WhichPath(m, "java");
      if found.Halted() {
        return found;
      }
      st := RunVersion(m, javaPath);
    }

    /** The second half of `checkVersion()`: `java -version` at `javaPath`, judged. */
    method RunVersion(m: Machine, javaPath: string) returns (st: Status)
      requires versions != []
      modifies m
      ensures st == Verdict(m.exec(VersionCommand(javaPath)), versions)
      ensures m.trace == old(m.trace) + [Ran(VersionCommand(javaPath))] && m.files == old(m.files)
    {
      var r := m.Run(VersionCommand(javaPath));
      if r.status != 0 {
        return Exit(1, CheckFailed + ": " + r.stderr);
      }
      if r.stderr == "" {
        return Exit(1, CheckFailed);
      }
      var accepted := MentionsAny(r.stderr, versions);
      if accepted {
        return Ok;
      }
      st := Exit(1, "\U{26D4}\U{FE0F} Java version " + r.stderr + " differs with preferred version " + versions[0]);
    }

    /**
     * `prepare()`: without a `java` on the search path the tool installs one when allowed
     * (through Homebrew, which is not part of this model, and without a version check) and
     * exits with 1 otherwise; with one, its version is checked.
     */
    method Prepare(m: Machine) returns (st: Status)
      requires versions != []
      modifies m
      ensures var w := m.exec(WhichCommand("java"));
        var present := w.status == 0 && w.Stdout() != "";
        (!present && autoInstall ==> st == Ok && m.trace == old(m.trace) + [Ran(WhichCommand("java"))]) &&
        (!present && !autoInstall ==>
           st == Exit(1, MissingNotice(versions[0])) && m.trace == old(m.trace) + [Ran(WhichCommand("java"))]) &&
        (present ==>
           var run := VersionCommand(Trim(w.Stdout(), WhitespacesAndNewlines));
           st == Verdict(m.exec(run), versions) &&
           m.trace == old(m.trace) + [Ran(WhichCommand("java")), Ran(WhichCommand("java")), Ran(run)])
      ensures m.files == old(m.files)
    {
      var present := Which(m, "java");
      if !present {
        if autoInstall {
          return Ok;
        }
        return Exit(1, MissingNotice(versions[0]));
      }
      st := CheckVersion(m);
    }
  }

  // ---------------------------------------------------------------- properties

  /** With one accepted version, the check is a plain text search for it. */
  lemma SingleVersion(text: string, v: string)
    ensures Mentions(text, [v]) <==> Contains(text, v)
  {
    if Contains(text, v) {
      assert [v][0] == v;
    }
  }

  /** The search is textual: an update number that holds "17" passes for version 17. */
  lemma UpdateNumberPasses()
    ensures var text := "java version \"1.8.0_172\"";
      Mentions(text, ["17"]) && Verdict(ProcessResult(0, [], text), ["17"]).Ok?
  {
    var text := "java version \"1.8.0_172\"";
    assert text[20..][..2] == "17";
    SingleVersion(text, "17");
  }

  /** A newer release is refused unless "17" happens to occur in its banner, although the
      notice asks for v17 "or higher". */
  lemma NewerReleaseRefused()
    ensures var text := "openjdk version \"21\"";
      !Mentions(text, ["17"]) && Verdict(ProcessResult(0, [], text), ["17"]).Exit?
  {
    var text := "openjdk version \"21\"";
    SingleVersion(text, "17");
    assert forall j | 0 <= j < |text| :: text[j] != '7';
    forall i | 0 <= i <= |text| ensures !StartsWith(text[i..], "17") {
      if i + 2 <= |text| {
        assert text[i..][..2][1] == text[i + 1];
      }
    }
  }
}
