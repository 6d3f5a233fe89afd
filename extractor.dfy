/**
 * `Extractor.extract`: unpacks a `.tar.gz` archive into its destination folder, or a `.zip`
 * archive into the destination's parent folder, with the system's `tar` or `unzip`.
 */
module Extractor {
  import opened Wrappers
  import opened Strings
  import opened Host
  import opened Paths

  /** How an archive is unpacked: the program looked up with `which`, and its arguments. */
  datatype Plan =
    | Untar(args: seq<string>)
    /** `clear` is the folder removed before unzipping. */
    | Unzip(clear: string, args: seq<string>)
  {
    function Program(): string {
      if Untar? then "tar" else "unzip"
    }
  }

  /** The plan for `archive`, chosen by the suffix of its file name; none for other types. */
  function PlanFor(archive: string, dest: string): Option<Plan> {
    var filename := LastComponent(archive);
    if EndsWith(filename, ".tar.gz") then
      Some(Untar(["xzf", archive, "--strip-components=1", "--directory", dest]))
    else if EndsWith(filename, ".zip") then
      Some(Unzip(Append(Parent(dest), DeletingExtension(filename)), [archive, "-d", Parent(dest)]))
    else None
  }

  function Unsupported(archive: string): string {
    "\U{26D4}\U{FE0F} Unabe to extract " + LastComponent(archive) + " cause this filetype is not suppeorted"
  }

  function Failed(name: string, r: ProcessResult): string {
    "\U{26D4}\U{FE0F} Unable to extract " + name + ": " + r.stderr
  }

  /** The folder preparation before the program runs: a missing destination is created for
      `tar`, the previous result is removed for `unzip`. */
  function Preparing(p: Plan, files: set<string>, dest: string): (Outcome)
  {
    match p
    case Untar(_) => if dest in files then Outcome(Ok, [], files) else Outcome(Ok, [Created(dest)], files + {dest})
    case Unzip(clear, _) => Outcome(Ok, [Removed(clear)], files - {clear})
  }

  /** Looking the plan's program up and running it from the paths `files`. */
  function LaunchOutcome(m: Machine, files: set<string>, name: string, p: Plan): Outcome {
    var lookup := WhichCommand(p.Program());
    var w := m.exec(lookup);
    if w.status != 0 then Outcome(Fatal(NotFound(p.Program())), [Ran(lookup)], files)
    else if w.Stdout() == "" then Outcome(Exit(1, NotFound(p.Program())), [Ran(lookup)], files)
    else
      var argv := [Trim(w.Stdout(), WhitespacesAndNewlines)] + p.args;
      var r := m.exec(argv);
      if r.status != 0 then Outcome(Fatal(Failed(name, r)), [Ran(lookup), Ran(argv)], files)
      else Outcome(Ok, [Ran(lookup), Ran(argv)], files + m.unpacks(argv))
  }

  /** Everything `extract(name:archive:dest:)` does, starting from the paths `files`. */
  function ExtractOutcome(m: Machine, files: set<string>, name: string, archive: string, dest: string): Outcome {
    match PlanFor(archive, dest)
    case None => Outcome(Fatal(Unsupported(archive)), [], files)
    case Some(p) =>
      var pre := Preparing(p, files, dest);
      var run := LaunchOutcome(m, pre.files, name, p);
      Outcome(run.status, pre.actions + run.actions, run.files)
  }

  method Extract(m: Machine, name: string, archive: string, dest: string) returns (st: Status)
    modifies m
    ensures var o := ExtractOutcome(m, old(m.files), name, archive, dest);
      st == o.status && m.trace == old(m.trace) + o.actions && m.files == o.files
  {
    var filename := LastComponent(archive);
    ghost var files0, trace0 := m.files, m.trace;
    var plan;
    if EndsWith(filename, ".tar.gz") {
      plan := Untar(["xzf", archive, "--strip-components=1", "--directory", dest]);
      if !m.Exists(dest) {
        m.CreateDirectory(dest);
      }
    } else if EndsWith(filename, ".zip") {
      var clear := Append(Parent(dest), DeletingExtension(filename));
      plan := Unzip(clear, [archive, "-d", Parent(dest)]);
      m.Remove(clear);
    } else {
      return Fatal(Unsupported(archive));
    }
    ghost var pre := Preparing(plan, files0, dest);
    assert PlanFor(archive, dest) == Some(plan);
    assert m.files == pre.files && m.trace == trace0 + pre.actions;
    st := Launch(m, name, plan);
    Assoc(trace0, pre.actions, LaunchOutcome(m, pre.files, name, plan).actions);
  }

  /** The lookup of the program and its run, with the launch path `which` printed. */
  method Launch(m: Machine, name: string, p: Plan) returns (st: Status)
    modifies m
    ensures var o := LaunchOutcome(m, old(m.files), name, p);
      st == o.status && m.trace == old(m.trace) + o.actions && m.files == o.files
  {
    var found, launchPath := WhichPath(m, p.Program());
    if !found.Ok? {
      return found;
    }
    var r := m.Unpack([launchPath] + p.args);
    AppendTwo(old(m.trace), Ran(WhichCommand(p.Program())), Ran([launchPath] + p.args));
    if r.status != 0 {
      return Fatal(Failed(name, r));
    }
    st := Ok;
  }

  // ---------------------------------------------------------------- properties

  /** An archive that is neither `.tar.gz` nor `.zip` is refused before anything is done. */
  lemma UnsupportedDoesNothing(m: Machine, files: set<string>, name: string, archive: string, dest: string)
    requires !EndsWith(LastComponent(archive), ".tar.gz") && !EndsWith(LastComponent(archive), ".zip")
    ensures var o := ExtractOutcome(m, files, name, archive, dest);
      o.status.Fatal? && o.actions == [] && o.files == files
  {
  }

  /** A successful extraction ran the program `which` found, on the archive, as its last
      action, and left the archive's contents in place. */
  lemma ExtractSucceeded(m: Machine, files: set<string>, name: string, archive: string, dest: string)
    requires ExtractOutcome(m, files, name, archive, dest).status.Ok?
    ensures var o := ExtractOutcome(m, files, name, archive, dest);
      var p := PlanFor(archive, dest).value;
      var w := m.exec(WhichCommand(p.Program()));
      var argv := [Trim(w.Stdout(), WhitespacesAndNewlines)] + p.args;
      PlanFor(archive, dest).Some? && |o.actions| >= 2 &&
      o.actions[|o.actions| - 2] == Ran(WhichCommand(p.Program())) &&
      o.actions[|o.actions| - 1] == Ran(argv) && archive in argv &&
      m.exec(argv).status == 0 && m.unpacks(argv) <= o.files
  {
    var p := PlanFor(archive, dest).value;
    var w := m.exec(WhichCommand(p.Program()));
    var argv := [Trim(w.Stdout(), WhitespacesAndNewlines)] + p.args;
    assert argv[2] == archive || argv[1] == archive;
  }

  /** A `.tar.gz` archive is unpacked into `dest` itself, which exists afterwards. */
  lemma TarIntoDest(m: Machine, files: set<string>, name: string, archive: string, dest: string)
    requires EndsWith(LastComponent(archive), ".tar.gz")
    ensures var o := ExtractOutcome(m, files, name, archive, dest);
      PlanFor(archive, dest).value.args[3..] == ["--directory", dest] &&
      dest in o.files && (o.actions[0] == Created(dest) <==> dest !in files)
  {
  }

  /** A `.zip` archive is unpacked into the parent of `dest`, after the folder beside `dest`
      named after the archive without its extension has been removed. */
  lemma ZipIntoParent(m: Machine, files: set<string>, name: string, archive: string, dest: string)
    requires !EndsWith(LastComponent(archive), ".tar.gz") && EndsWith(LastComponent(archive), ".zip")
    requires StartsWith(Parent(dest), "/") && !EndsWith(Parent(dest), "/")
    ensures var o := ExtractOutcome(m, files, name, archive, dest);
      var clear := PlanFor(archive, dest).value.clear;
      PlanFor(archive, dest).value.args[1..] == ["-d", Parent(dest)] &&
      Parent(clear) == Parent(dest) && LastComponent(clear) == DeletingExtension(LastComponent(archive)) &&
      o.actions[0] == Removed(clear)
  {
    var filename := LastComponent(archive);
    SplitPartsFree(archive, "/");
    NoSlash(filename);
    var base := DeletingExtension(filename);
    NoSlashInPrefix(filename, base);
    AppendComponent(Parent(dest), base);
  }

  lemma NoSlashInPrefix(filename: string, base: string)
    requires '/' !in filename
    requires base == DeletingExtension(filename)
    ensures '/' !in base
  {
    match LastIndexOf(filename, '.')
    case Some(i) =>
      if 0 < i < |filename| - 1 {
        assert forall k | 0 <= k < |base| :: base[k] == filename[k];
      }
    case None =>
  }

  /** An archive named `base.ext` loses exactly `.ext`. */
  lemma DeletingExtensionOf(base: string, ext: string)
    requires base != [] && ext != [] && '.' !in ext
    ensures DeletingExtension(base + "." + ext) == base
  {
    var s := base + "." + ext;
    assert s[|base|] == '.';
    assert s[..|base|] == base;
  }
}
