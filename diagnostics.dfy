/**
 * What the Swift compiler's failure output means to the tool: the diagnostic lines it
 * recognises, the places it collects from them, and how places of one file are merged,
 * de-duplicated and sorted. This is the specification the imperative parser in
 * `SwiftTool` is proved against.
 *
 * The scan is written as functions over the list of lines and an index `i`: the lines
 * before `i` are the ones the parser has already removed from the front of its array.
 */
module Diagnostics {
  import opened Wrappers
  import opened Strings
  import Paths

  /** `CompilationError.Place`. */
  datatype Place = Place(line: int, reason: string, code: string, pointer: string)

  /** `CompilationError`: one file and its error places. The file is kept as the path text. */
  datatype FileErrors = FileErrors(file: string, places: seq<Place>)

  /** Where one run of consecutive same-file diagnostics ends, its file and its places. */
  datatype Run = Run(next: nat, file: string, places: seq<Place>)

  /** `lineIsPlace`: an absolute path mentioning a Swift source location. */
  predicate LineIsPlace(line: string) {
    StartsWith(line, "/") && |Split(line, "/")| > 1 && Contains(line, ".swift:")
  }

  /** `placeErrorComponents`: the five ':'-separated fields of an error line. */
  function ErrorFields(line: string): Option<seq<string>> {
    var c := Split(line, ":");
    if |c| == 5 && Contains(c[3], "error") then Some(c) else None
  }

  /** A line the parser takes as the head of an error block. */
  predicate IsDiagnostic(line: string) {
    LineIsPlace(line) && ErrorFields(line).Some?
  }

  /** The test the parser applies to the line after a block to continue the run. */
  predicate SameFileDiagnostic(line: string, file: string) {
    IsDiagnostic(line) && ErrorFields(line).value[0] == file
  }

  /** A diagnostic line whose line field is a number: the parser takes the two lines after it. */
  predicate IsNumbered(line: string) {
    IsDiagnostic(line) && ParseInt(ErrorFields(line).value[1]).Some?
  }

  /** Line `i` heads a complete error block for `file` that yields `p`. */
  predicate DiagnosticAt(lines: seq<string>, i: int, file: string, p: Place) {
    0 <= i && i + 2 < |lines| && IsDiagnostic(lines[i]) &&
    var c := ErrorFields(lines[i]).value;
    c[0] == file && ParseInt(c[1]) == Some(p.line) && c[4] == p.reason &&
    lines[i + 1] == p.code && lines[i + 2] == p.pointer && Contains(p.pointer, "^")
  }

  /** Some block of the output yields place `p` for `file`. */
  ghost predicate Witnessed(lines: seq<string>, file: string, p: Place) {
    exists i :: DiagnosticAt(lines, i, file, p)
  }

  /**
   * `parsePlace` entered with `lines[i - 1]`: collects the run of consecutive blocks for one
   * file into `acc`. `None` when `removeFirst` is applied to an exhausted array, which traps.
   */
  function ScanRun(lines: seq<string>, i: nat, acc: seq<Place>): (r: Option<Run>)
    requires 0 < i <= |lines| && LineIsPlace(lines[i - 1])
    ensures r.Some? ==> i <= r.value.next <= |lines| && acc <= r.value.places
    decreases |lines| - i
  {
    match ErrorFields(lines[i - 1])
    case None => Some(Run(i, "", acc))
    case Some(c) =>
      match ParseInt(c[1])
      case None => Some(Run(i, c[0], acc))
      case Some(n) =>
        if i + 1 >= |lines| then None
        else if !Contains(lines[i + 1], "^") then Some(Run(i + 2, c[0], acc))
        else
          var acc' := acc + [Place(n, c[4], lines[i], lines[i + 1])];
          if i + 2 < |lines| && SameFileDiagnostic(lines[i + 2], c[0])
          then ScanRun(lines, i + 3, acc')
          else Some(Run(i + 2, c[0], acc'))
  }

  /** The outer `while !lines.isEmpty` loop, from line `i` on, with `errors` collected so far. */
  function ScanFrom(lines: seq<string>, i: nat, errors: seq<FileErrors>): Option<seq<FileErrors>>
    requires i <= |lines|
    decreases |lines| - i
  {
    if i == |lines| then Some(errors)
    else if !LineIsPlace(lines[i]) then ScanFrom(lines, i + 1, errors)
    else
      match ScanRun(lines, i + 1, [])
      case None => None
      case Some(run) => ScanFrom(lines, run.next, Merge(errors, run.file, run.places))
  }

  /** `pasreCompilationErrors` on the output split into lines; `None` when it traps. */
  function CompilationErrors(lines: seq<string>): Option<seq<FileErrors>> {
    match ScanFrom(lines, 0, [])
    case None => None
    case Some(errors) => Some(SortByName(errors))
  }

  // ---------------------------------------------------------------- merging

  /** `errors.first(where: { $0.file == filePath })`, as an index. */
  function IndexOfFile(errors: seq<FileErrors>, file: string): (r: Option<nat>)
    ensures r.Some? ==> r.value < |errors| && errors[r.value].file == file &&
                        forall j | 0 <= j < r.value :: errors[j].file != file
    ensures r.None? ==> forall j | 0 <= j < |errors| :: errors[j].file != file
  {
    if errors == [] then None
    else if errors[0].file == file then Some(0)
    else
      match IndexOfFile(errors[1..], file)
      case None => None
      case Some(j) => Some(j + 1)
  }

  /** Two places report the same line with the same reason. */
  predicate SameKey(p: Place, q: Place) {
    p.line == q.line && p.reason == q.reason
  }

  predicate HasKey(ps: seq<Place>, p: Place) {
    exists q | q in ps :: SameKey(q, p)
  }

  predicate NoDuplicateKeys(ps: seq<Place>) {
    forall i, j | 0 <= i < j < |ps| :: !SameKey(ps[i], ps[j])
  }

  /** The `places.forEach` of `gracefulExit`: appends each place whose key is not yet
      present, checking against the list as it grows. */
  function AddMissing(existing: seq<Place>, run: seq<Place>): seq<Place>
    decreases |run|
  {
    if run == [] then existing
    else AddMissing(if HasKey(existing, run[0]) then existing else existing + [run[0]], run[1..])
  }

  /** `gracefulExit`: merges a run into the entry for its file, or appends a new entry. */
  function Merge(errors: seq<FileErrors>, file: string, run: seq<Place>): seq<FileErrors> {
    if run == [] then errors
    else
      match IndexOfFile(errors, file)
      case Some(k) => errors[k := FileErrors(file, SortByLine(AddMissing(errors[k].places, run)))]
      case None => errors + [FileErrors(file, SortByLine(run))]
  }

  // ---------------------------------------------------------------- sorting

  predicate SortedByLine(ps: seq<Place>) {
    forall i, j | 0 <= i < j < |ps| :: ps[i].line <= ps[j].line
  }

  function InsertByLine(p: Place, ps: seq<Place>): (r: seq<Place>)
    requires SortedByLine(ps)
    ensures SortedByLine(r) && multiset(r) == multiset(ps) + multiset{p}
  {
    if ps == [] || p.line <= ps[0].line then [p] + ps
    else
      var rest := InsertByLine(p, ps[1..]);
      InsertBehindHead(p, ps, rest);
      [ps[0]] + rest
  }

  /** The step of `InsertByLine` that keeps the head of `ps` in front. */
  lemma InsertBehindHead(p: Place, ps: seq<Place>, rest: seq<Place>)
    requires ps != [] && ps[0].line < p.line && SortedByLine(ps)
    requires SortedByLine(rest) && multiset(rest) == multiset(ps[1..]) + multiset{p}
    ensures SortedByLine([ps[0]] + rest)
    ensures multiset([ps[0]] + rest) == multiset(ps) + multiset{p}
  {
    assert ps == [ps[0]] + ps[1..];
    forall j | 0 <= j < |rest|
      ensures ps[0].line <= rest[j].line
    {
      assert rest[j] in multiset(ps[1..]) + multiset{p};
    }
  }

  /** `sort(by: { $0.line < $1.line })`, as a stable insertion sort. */
  function SortByLine(ps: seq<Place>): (r: seq<Place>)
    ensures SortedByLine(r) && multiset(r) == multiset(ps)
  {
    if ps == [] then []
    else
      assert ps == [ps[0]] + ps[1..];
      InsertByLine(ps[0], SortByLine(ps[1..]))
  }

  /** Swift's `<` on strings, as the order of their characters. */
  predicate LexLess(a: string, b: string)
    decreases |a|
  {
    if a == [] then b != []
    else if b == [] then false
    else a[0] < b[0] || (a[0] == b[0] && LexLess(a[1..], b[1..]))
  }

  /** The key entries are sorted by: the file's last path component. */
  function NameKey(e: FileErrors): string {
    Paths.LastComponent(e.file)
  }

  predicate SortedByName(es: seq<FileErrors>) {
    forall i, j | 0 <= i < j < |es| :: !LexLess(NameKey(es[j]), NameKey(es[i]))
  }

  lemma {:induction false} LexLessAsymmetric(a: string, b: string)
    requires LexLess(a, b)
    ensures !LexLess(b, a)
    decreases |a|
  {
    if a != [] && b != [] && a[0] == b[0] {
      LexLessAsymmetric(a[1..], b[1..]);
    }
  }

  /** "Not less than" is transitive: the order is total, so sorting by it is well defined. */
  lemma {:induction false} LexLeqTransitive(a: string, b: string, c: string)
    requires !LexLess(b, a) && !LexLess(c, b)
    ensures !LexLess(c, a)
    decreases |a|
  {
    if a != [] && b != [] && c != [] && a[0] == b[0] && b[0] == c[0] {
      LexLeqTransitive(a[1..], b[1..], c[1..]);
    }
  }

  function InsertByName(e: FileErrors, es: seq<FileErrors>): (r: seq<FileErrors>)
    requires SortedByName(es)
    ensures SortedByName(r) && multiset(r) == multiset(es) + multiset{e}
  {
    if es == [] || !LexLess(NameKey(es[0]), NameKey(e)) then
      InsertInFrontByName(e, es);
      [e] + es
    else
      var rest := InsertByName(e, es[1..]);
      InsertBehindHeadByName(e, es, rest);
      [es[0]] + rest
  }

  /** The step of `InsertByName` that puts `e` before every entry of `es`. */
  lemma InsertInFrontByName(e: FileErrors, es: seq<FileErrors>)
    requires SortedByName(es) && (es == [] || !LexLess(NameKey(es[0]), NameKey(e)))
    ensures SortedByName([e] + es)
  {
    forall j | 0 <= j < |es|
      ensures !LexLess(NameKey(es[j]), NameKey(e))
    {
      if j > 0 {
        LexLeqTransitive(NameKey(e), NameKey(es[0]), NameKey(es[j]));
      }
    }
  }

  /** The step of `InsertByName` that keeps the head of `es` in front. */
  lemma InsertBehindHeadByName(e: FileErrors, es: seq<FileErrors>, rest: seq<FileErrors>)
    requires es != [] && LexLess(NameKey(es[0]), NameKey(e)) && SortedByName(es)
    requires SortedByName(rest) && multiset(rest) == multiset(es[1..]) + multiset{e}
    ensures SortedByName([es[0]] + rest)
    ensures multiset([es[0]] + rest) == multiset(es) + multiset{e}
  {
    LexLessAsymmetric(NameKey(es[0]), NameKey(e));
    assert es == [es[0]] + es[1..];
    forall j | 0 <= j < |rest|
      ensures !LexLess(NameKey(rest[j]), NameKey(es[0]))
    {
      assert rest[j] in multiset(es[1..]) + multiset{e};
    }
  }

  /** `errors.sort(by: { $0.file.lastPathComponent < $1.file.lastPathComponent })`. */
  function SortByName(es: seq<FileErrors>): (r: seq<FileErrors>)
    ensures SortedByName(r) && multiset(r) == multiset(es)
  {
    if es == [] then []
    else
      assert es == [es[0]] + es[1..];
      InsertByName(es[0], SortByName(es[1..]))
  }
}
