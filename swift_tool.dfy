/**
 * The `Swift` helper: building one architecture with the Android toolchain, reading the
 * compiler's errors out of a failed build, and copying the built libraries into the
 * Android project. The error parser is the imperative line-cursor loop of the tool,
 * proved equal to the `Diagnostics` specification.
 */
module SwiftTool {
  import opened Wrappers
  import opened Strings
  import opened Host
  import opened Archs
  import opened Diagnostics
  import opened DiagnosticsFacts
  import Paths

  // ---------------------------------------------------------------- parsing

  /** `gracefulExit`: folds the places of a finished run into `errors`. */
  method GracefulExit(errors: seq<FileErrors>, file: string, places: seq<Place>)
    returns (merged: seq<FileErrors>)
    ensures merged == Merge(errors, file, places)
  {
    merged := errors;
    if |places| > 0 {
      var found := IndexOfFile(errors, file);
      if found.Some? {
        var k := found.value;
        var existing := errors[k].places;
        var j := 0;
        while j < |places|
          invariant 0 <= j <= |places|
          invariant AddMissing(existing, places[j..]) == AddMissing(errors[k].places, places)
        {
          assert places[j..][1..] == places[j + 1..];
          if !HasKey(existing, places[j]) {
            existing := existing + [places[j]];
          }
          j := j + 1;
        }
        merged := errors[k := FileErrors(file, SortByLine(existing))];
      } else {
        merged := errors + [FileErrors(file, SortByLine(places))];
      }
    }
  }

  /**
   * `pasreCompilationErrors`: drains the lines from the front; a place line starts a run,
   * which takes a code line and a caret line per block and goes on while the next line is an
   * error line for the same file. Defined unless `removeFirst` would run out of lines.
   */
  method ParseCompilationErrors(raw: string) returns (errors: seq<FileErrors>)
    requires CompilationErrors(Split(raw, "\n")).Some?
    ensures errors == CompilationErrors(Split(raw, "\n")).value
    ensures UniqueFiles(errors) && SortedByName(errors)
    ensures forall e | e in errors :: EntryOk(e) && EntrySound(Split(raw, "\n"), e)
  {
    var lines := Split(raw, "\n");
    errors := [];
    var i := 0;
    while i < |lines|
      invariant 0 <= i <= |lines|
      invariant ScanFrom(lines, i, errors) == ScanFrom(lines, 0, [])
      decreases |lines| - i
    {
      var line := lines[i];
      i := i + 1;
      if !LineIsPlace(line) {
        continue;
      }
      i, errors := ParsePlace(lines, i, errors);
    }
    if |errors| > 0 {
      errors := SortByName(errors);
    }
    CompilationErrorsWellFormed(lines);
  }

  /**
   * `parsePlace` on `lines[i - 1]`, the line just removed: its recursion on the next same-file
   * line becomes a loop. Returns the cursor after the run and `errors` with the run merged in.
   */
  method ParsePlace(lines: seq<string>, i: nat, errors: seq<FileErrors>) returns (next: nat, merged: seq<FileErrors>)
    requires 0 < i <= |lines| && LineIsPlace(lines[i - 1]) && ScanRun(lines, i, []).Some?
    ensures next == ScanRun(lines, i, []).value.next
    ensures merged == Merge(errors, ScanRun(lines, i, []).value.file, ScanRun(lines, i, []).value.places)
  {
    ghost var run := ScanRun(lines, i, []).value;
    var places: seq<Place> := [];
    var line := lines[i - 1];
    next, merged := i, errors;
    while true
      invariant 0 < next <= |lines| && line == lines[next - 1] && LineIsPlace(line)
      invariant ScanRun(lines, next, places) == Some(run)
      invariant places != [] ==> IsDiagnostic(line)
      invariant merged == errors
      decreases |lines| - next
    {
      var fields := ErrorFields(line);
      if fields.None? {
        return;
      }
      var c := fields.value;
      var file := c[0];
      var lineInFile := ParseInt(c[1]);
      if lineInFile.None? {
        merged := GracefulExit(merged, file, places);
        return;
      }
      var code := lines[next];
      var pointer := lines[next + 1];
      next := next + 2;
      if !Contains(pointer, "^") {
        merged := GracefulExit(merged, file, places);
        return;
      }
      places := places + [Place(lineInFile.value, c[4], code, pointer)];
      if next < |lines| && SameFileDiagnostic(lines[next], file) {
        line := lines[next];
        next := next + 1;
      } else {
        merged := GracefulExit(merged, file, places);
        return;
      }
    }
  }

  // ---------------------------------------------------------------- the report

  /** `errors.map { $0.places.count }.reduce(0, +)`. */
  function TotalPlaces(es: seq<FileErrors>): nat {
    if es == [] then 0 else |es[0].places| + TotalPlaces(es[1..])
  }

  /** Every parsed entry has a place, so a non-empty result counts at least one error per file. */
  lemma {:induction false} TotalPlacesAtLeastFiles(es: seq<FileErrors>)
    requires forall e | e in es :: EntryOk(e)
    ensures TotalPlaces(es) >= |es|
    ensures TotalPlaces(es) == 1 <==> |es| == 1 && |es[0].places| == 1
  {
    if es != [] {
      assert es[0] in es;
      assert forall e | e in es[1..] :: e in es;
      TotalPlacesAtLeastFiles(es[1..]);
    }
  }

  /** The count phrase at the end of the failure message. */
  function Ending(count: nat): (r: string)
    ensures r == [] <==> count == 0
  {
    if count == 1 then "found 1 error \U{2757}\U{FE0F}"
    else if count > 1 then "found " + IntToString(count) + " errors \U{2757}\U{FE0F}\U{2757}\U{FE0F}\U{2757}\U{FE0F}"
    else ""
  }

  /** The count can be read back from the ending: distinct counts give distinct endings. */
  lemma EndingStatesCount(a: nat, b: nat)
    requires a <= MaxInt && b <= MaxInt && Ending(a) == Ending(b)
    ensures a == b
  {
    if a > 1 && b > 1 {
      var sa := IntToString(a);
      var sb := IntToString(b);
      assert |sa| == |sb|;
      assert sa == Ending(a)[6..6 + |sa|];
      assert sb == Ending(b)[6..6 + |sb|];
      ParseIntToString(a);
      ParseIntToString(b);
    }
  }

  const ErrorTitle: string := " ERROR "

  /** `"\(place.line) |"`. */
  function LineLabel(line: int): (r: string)
    ensures |r| >= 3 && r[|r| - 1] == '|'
  {
    IntToString(line) + " |"
  }

  function Spaces(n: nat): (r: string)
    ensures |r| == n && forall i | 0 <= i < n :: r[i] == ' '
  {
    seq(n, _ => ' ')
  }

  /** `errorLinePrefix`: `(0..._len)` yields `_len + 1` spaces. */
  function GutterPad(gutter: string): string {
    var len := (|ErrorTitle| + 5) - |gutter|;
    if len > 0 then Spaces(len + 1) else ""
  }

  /** The printed line holding the offending code, after its line-number gutter. */
  function CodeLine(p: Place): string {
    var gutter := LineLabel(p.line);
    GutterPad(gutter) + gutter + " " + p.code
  }

  /** The printed caret line: as many spaces as the gutter less one, then '|'. */
  function PointerLine(p: Place): string {
    var gutter := LineLabel(p.line);
    GutterPad(gutter) + Spaces(|gutter| - 1) + "|" + " " + p.pointer
  }

  /**
   * The code line and the caret line have their '|' in the same column, followed by one
   * space and then the code and the caret text, so the caret points at the code above it.
   * The gutter is 13 wide for labels of up to 11 characters.
   */
  lemma GutterAligned(p: Place)
    ensures var w := |GutterPad(LineLabel(p.line))| + |LineLabel(p.line)|;
      var code := CodeLine(p);
      var pointer := PointerLine(p);
      |code| == w + 1 + |p.code| && |pointer| == w + 1 + |p.pointer| &&
      code[w - 1] == '|' && pointer[w - 1] == '|' && code[w] == ' ' && pointer[w] == ' ' &&
      code[w + 1..] == p.code && pointer[w + 1..] == p.pointer &&
      (|LineLabel(p.line)| < 12 ==> w == 13)
  {
  }

  /** The `": error:"` fallback applied to standard error when standard output is empty. */
  function StderrSummary(err: string): (r: string)
    ensures !Contains(err, ": error:") ==> r == err
    ensures Contains(err, ": error:") ==> !Contains(r, ": error:")
    ensures exists i, j | 0 <= i <= j <= |err| :: r == err[i..j]
  {
    var separator := ": error:";
    if Contains(err, separator) then
      var r := Trim(Last(Split(err, separator)), Whitespaces);
      assert !Contains(r, separator) && exists i, j | 0 <= i <= j <= |err| :: r == err[i..j] by {
        var i, j := LastPartTrimmed(err, separator);
      }
      r
    else
      assert err == err[0..|err|];
      err
  }

  /** The trimmed last part of a split is a slice of the text and holds no separator. */
  lemma LastPartTrimmed(err: string, sep: string) returns (i: nat, j: nat)
    requires sep != []
    ensures var r := Trim(Last(Split(err, sep)), Whitespaces);
      !Contains(r, sep) && i <= j <= |err| && r == err[i..j]
  {
    var pre := LastPartIsSuffix(err, sep);
    i, j := TrimmedTailSlice(err, pre, Last(Split(err, sep)), sep);
  }

  /** Trimming a tail of the text without `sep` gives a slice of the text without `sep`. */
  lemma TrimmedTailSlice(err: string, pre: string, last: string, sep: string) returns (i: nat, j: nat)
    requires sep != [] && err == pre + last && !Contains(last, sep)
    ensures var r := Trim(last, Whitespaces);
      !Contains(r, sep) && i <= j <= |err| && r == err[i..j]
  {
    var b := TrimIsSlice(last, Whitespaces);
    i, j := SliceOfRight(pre, last, Trim(last, Whitespaces), b);
    TrimKeepsAbsence(last, sep);
  }

  /** Trimming a text without `sep` leaves it without `sep`. */
  lemma TrimKeepsAbsence(s: string, sep: string)
    requires sep != [] && !Contains(s, sep)
    ensures !Contains(Trim(s, Whitespaces), sep)
  {
    var r := Trim(s, Whitespaces);
    var b := TrimIsSlice(s, Whitespaces);
    if Contains(r, sep) {
      SliceContains(s, b, b + |r|, sep);
    }
  }

  /** The last part of a split ends the text and holds no separator. */
  lemma LastPartIsSuffix(err: string, sep: string) returns (pre: string)
    requires sep != []
    ensures err == pre + Last(Split(err, sep)) && !Contains(Last(Split(err, sep)), sep)
  {
    var parts := Split(err, sep);
    SplitPartsFree(err, sep);
    JoinSplit(err, sep);
    Paths.JoinEndsWithLast(parts, sep);
    pre := err[..|err| - |Last(parts)|];
    assert err == pre + err[|err| - |Last(parts)|..];
  }

  /** An occurrence in a slice is an occurrence in the text. */
  lemma SliceContains(s: string, i: nat, j: nat, sep: string)
    requires i <= j <= |s| && Contains(s[i..j], sep)
    ensures Contains(s, sep)
  {
    var k :| 0 <= k <= j - i && StartsWith(s[i..j][k..], sep);
    assert s[i..j][k..][..|sep|] == s[i + k..][..|sep|];
    assert StartsWith(s[i + k..], sep);
  }

  // ---------------------------------------------------------------- building

  /** The build command for one architecture. */
  function BuildCommand(buildBin: string, arch: Arch, product: string): seq<string> {
    [buildBin, "-target", Triple(arch), "--product", product]
  }

  /** A failed build whose output the parser can read without running out of lines. */
  predicate OutputReadable(r: ProcessResult) {
    r.status != 0 && r.Stdout() != "" ==> CompilationErrors(Split(r.Stdout(), "\n")).Some?
  }

  /** What a build run leads to: success, a fatal error, or an orderly exit after listing the
      compiler's errors. */
  function BuildOutcome(r: ProcessResult): (st: Status)
    requires OutputReadable(r)
    ensures st.Ok? <==> r.status == 0
    ensures st.Exit? ==> st.code == 0 && r.Stdout() != "" &&
                         CompilationErrors(Split(r.Stdout(), "\n")).Some? &&
                         CompilationErrors(Split(r.Stdout(), "\n")).value != []
    ensures (st.Fatal? && r.Stdout() != "") ==>
              (st.message == r.Stdout() && CompilationErrors(Split(r.Stdout(), "\n")) == Some([]))
  {
    if r.status == 0 then Ok
    else if r.Stdout() == "" then
      if r.stderr != "" then Fatal("\U{1F6A8} Build failed: " + StderrSummary(r.stderr))
      else Fatal("\U{1F6A8} Build failed with exit code " + IntToString(r.status))
    else
      var errors := CompilationErrors(Split(r.Stdout(), "\n")).value;
      if errors == [] then Fatal(r.Stdout())
      else
        Exit(0, "\U{1F97A} Unable to continue cause of failed compilation, " + Ending(TotalPlaces(errors)) + "\n")
  }

  /** `build(_:_:)`: runs the toolchain's build for one architecture. */
  method Build(m: Machine, buildBin: string, arch: Arch, product: string) returns (st: Status)
    requires OutputReadable(m.exec(BuildCommand(buildBin, arch, product)))
    modifies m
    ensures st == BuildOutcome(m.exec(BuildCommand(buildBin, arch, product)))
    ensures m.files == old(m.files) && m.trace == old(m.trace) + [Ran(BuildCommand(buildBin, arch, product))]
  {
    var r := m.Run(BuildCommand(buildBin, arch, product));
    if r.status == 0 {
      return Ok;
    }
    var raw := r.Stdout();
    if raw == "" {
      if r.stderr != "" {
        st := Fatal("\U{1F6A8} Build failed: " + StderrSummary(r.stderr));
      } else {
        st := Fatal("\U{1F6A8} Build failed with exit code " + IntToString(r.status));
      }
      return;
    }
    var errors := ParseCompilationErrors(raw);
    if |errors| == 0 {
      return Fatal(raw);
    }
    var errorsCount := TotalPlaces(errors);
    st := Exit(0, "\U{1F97A} Unable to continue cause of failed compilation, " + Ending(errorsCount) + "\n");
  }

  /** `outputPathURL` of `copyLibs`: the project's `app/src/main/jniLibs/<abi>` folder. */
  function JniLibsFolder(projectPath: string, arch: Arch): string {
    Paths.Append(Paths.Append(Paths.Append(Paths.Append(Paths.Append(projectPath, "app"), "src"), "main"), "jniLibs"), Android(arch))
  }

  /** Each architecture's libraries go to their own folder. */
  lemma JniLibsFoldersDistinct(projectPath: string, a: Arch, b: Arch)
    requires StartsWith(projectPath, "/") && !EndsWith(projectPath, "/")
    requires JniLibsFolder(projectPath, a) == JniLibsFolder(projectPath, b)
    ensures a == b
  {
    var app := Paths.Append(projectPath, "app");
    Paths.AppendKeepsForm(projectPath, "app");
    var src := Paths.Append(app, "src");
    Paths.AppendKeepsForm(app, "src");
    var main := Paths.Append(src, "main");
    Paths.AppendKeepsForm(src, "main");
    var dir := Paths.Append(main, "jniLibs");
    Paths.AppendKeepsForm(main, "jniLibs");
    Paths.AppendComponent(dir, Android(a));
    Paths.AppendComponent(dir, Android(b));
    AndroidInjective(a, b);
  }

  function CopyLibsCommand(copyBin: string, arch: Arch, projectPath: string): seq<string> {
    [copyBin, "-target", Triple(arch), "-output", JniLibsFolder(projectPath, arch)]
  }

  function ShowBinPathCommand(buildBin: string, arch: Arch): seq<string> {
    [buildBin, "-target", Triple(arch), "--show-bin-path"]
  }

  /** What `copyLibs` runs when both of its commands succeed. */
  function CopySteps(copyBin: string, buildBin: string, arch: Arch, projectPath: string): seq<Action> {
    [Ran(CopyLibsCommand(copyBin, arch, projectPath)), Ran(ShowBinPathCommand(buildBin, arch))]
  }

  /** The folder `copyLibs` lists: the bin-path query's answer, trimmed. */
  function LibFolder(where: ProcessResult): string {
    Trim(where.Stdout(), WhitespacesAndNewlines)
  }

  /** `copyLibs` up to listing the built libraries; the copying itself is not modelled. */
  method CopyLibs(m: Machine, copyBin: string, buildBin: string, arch: Arch, projectPath: string)
    returns (st: Status)
    modifies m
    ensures m.files == old(m.files)
    ensures st.Ok? || st.Fatal?
    ensures var copy := m.exec(CopyLibsCommand(copyBin, arch, projectPath));
            var where := m.exec(ShowBinPathCommand(buildBin, arch));
      (st.Ok? <==> copy.status == 0 && where.status == 0 && where.Stdout() != "" && LibFolder(where) in m.files) &&
      (copy.status != 0 ==> m.trace == old(m.trace) + [Ran(CopyLibsCommand(copyBin, arch, projectPath))]) &&
      (copy.status == 0 ==> m.trace == old(m.trace) + CopySteps(copyBin, buildBin, arch, projectPath))
  {
    var r := m.Run(CopyLibsCommand(copyBin, arch, projectPath));
    if r.status != 0 {
      return Fatal("\U{26D4}\U{FE0F} Unable to copy libs for " + Android(arch) + ": " + r.stderr);
    }
    var bin := m.Run(ShowBinPathCommand(buildBin, arch));
    if bin.status != 0 {
      return Fatal("\U{26D4}\U{FE0F} Unable to get *.so files path for " + Android(arch) + ": " + bin.stderr);
    }
    if bin.Stdout() == "" {
      return Fatal("\U{26D4}\U{FE0F} Unable to get *.so files path for " + Android(arch));
    }
    var libPath := LibFolder(bin);
    if !m.Exists(libPath) {
      return Fatal("\U{26D4}\U{FE0F} Unable to get list of *.so files for " + Android(arch) + " from " + libPath);
    }
    st := Ok;
  }
}
