/**
 * What the diagnostics scan guarantees: every reported place comes from a complete error
 * block of the output, each file is reported once, places are sorted by line and entries by
 * file name, a merge never loses a place and never adds a second place with a key already
 * present, and nothing is reported for output without error lines.
 */
module DiagnosticsFacts {
  import opened Wrappers
  import opened Strings
  import opened Diagnostics

  predicate UniqueFiles(es: seq<FileErrors>) {
    forall i, j | 0 <= i < j < |es| :: es[i].file != es[j].file
  }

  /** An entry as the parser leaves it: at least one place, sorted by line. */
  predicate EntryOk(e: FileErrors) {
    e.places != [] && SortedByLine(e.places)
  }

  ghost predicate EntrySound(lines: seq<string>, e: FileErrors) {
    forall p | p in e.places :: Witnessed(lines, e.file, p)
  }

  ghost predicate Inv(lines: seq<string>, es: seq<FileErrors>) {
    UniqueFiles(es) && forall e | e in es :: EntryOk(e) && EntrySound(lines, e)
  }

  /** Place `p` is reported for `file`. */
  predicate Reports(es: seq<FileErrors>, file: string, p: Place) {
    exists e | e in es :: e.file == file && p in e.places
  }

  // ---------------------------------------------------------------- the line format

  /** The error line the compiler prints, `<file>:<line>:<column>: error:<message>`. */
  function ErrorLine(file: string, line: int, column: string, message: string): string {
    file + ":" + IntToString(line) + ":" + column + ": error:" + message
  }

  /** An error line for a Swift file is taken as the head of a block, and its fields read
      back the file, the line number and the message. */
  lemma ErrorLineRecognised(file: string, line: int, column: string, message: string)
    requires StartsWith(file, "/") && EndsWith(file, ".swift") && ':' !in file
    requires ':' !in column && ':' !in message && MinInt <= line <= MaxInt
    ensures var text := ErrorLine(file, line, column, message);
      IsDiagnostic(text) &&
      ErrorFields(text) == Some([file, IntToString(line), column, " error", message]) &&
      ParseInt(ErrorFields(text).value[1]) == Some(line)
  {
    ErrorLineFields(file, IntToString(line), column, message);
    ErrorLineIsPlace(file, ErrorLine(file, line, column, message)[|file|..]);
    assert ErrorLine(file, line, column, message) == file + ErrorLine(file, line, column, message)[|file|..];
    ParseIntToString(line);
  }

  lemma ErrorLineFields(file: string, num: string, column: string, message: string)
    requires ':' !in file && ':' !in column && ':' !in message
    requires forall k | 0 <= k < |num| :: num[k] == '-' || IsDigit(num[k])
    ensures var text := file + ":" + num + ":" + column + ": error:" + message;
      ErrorFields(text) == Some([file, num, column, " error", message])
  {
    var text := file + ":" + num + ":" + column + ": error:" + message;
    var fields := [file, num, column, " error", message];
    assert Split(text, ":") == fields by {
      ErrorLineSplit(file, num, column, message);
    }
    assert Contains(fields[3], "error") by {
      assert StartsWith(" error"[1..], "error");
    }
  }

  lemma ErrorLineSplit(file: string, num: string, column: string, message: string)
    requires ':' !in file && ':' !in column && ':' !in message
    requires forall k | 0 <= k < |num| :: num[k] == '-' || IsDigit(num[k])
    ensures Split(file + ":" + num + ":" + column + ": error:" + message, ":") ==
            [file, num, column, " error", message]
  {
    assert ':' !in num by {
      forall k | 0 <= k < |num| ensures num[k] != ':' {
        assert num[k] == '-' || IsDigit(num[k]);
      }
    }
    var t4 := " error" + ":" + message;
    var t3 := column + ":" + t4;
    var t2 := num + ":" + t3;
    var t1 := file + ":" + t2;
    assert Split(t4, ":") == [" error", message] by {
      SplitWhole(message, ":");
      SplitAfter(" error", message, ":");
    }
    assert Split(t3, ":") == [column, " error", message] by {
      SplitAfter(column, t4, ":");
    }
    assert Split(t2, ":") == [num, column, " error", message] by {
      SplitAfter(num, t3, ":");
    }
    assert Split(t1, ":") == [file, num, column, " error", message] by {
      SplitAfter(file, t2, ":");
    }
    ErrorLineText(file, num, column, message);
  }

  /** The error line, regrouped around its separators. */
  lemma ErrorLineText(file: string, num: string, column: string, message: string)
    ensures file + ":" + num + ":" + column + ": error:" + message ==
            file + ":" + (num + ":" + (column + ":" + (" error" + ":" + message)))
  {
    assert ": error:" == ":" + " error" + ":";
  }

  lemma ErrorLineIsPlace(file: string, rest: string)
    requires StartsWith(file, "/") && EndsWith(file, ".swift") && StartsWith(rest, ":")
    ensures LineIsPlace(file + rest)
  {
    var text := file + rest;
    assert StartsWith(text, "/") by {
      assert text[..1] == file[..1];
    }
    assert |Split(text, "/")| > 1 by {
      assert text == "" + "/" + text[1..];
      SplitAfter("", text[1..], "/");
    }
    assert Contains(text, ".swift:") by {
      var k := |file| - 6;
      assert text[k..][..7] == ".swift:";
    }
  }

  // ---------------------------------------------------------------- the scan

  /** Every place a run collects comes from a complete block for the run's file. */
  lemma {:induction false} ScanRunSound(lines: seq<string>, i: nat, acc: seq<Place>)
    requires 0 < i <= |lines| && LineIsPlace(lines[i - 1])
    requires ScanRun(lines, i, acc).Some?
    ensures var r := ScanRun(lines, i, acc).value;
      (IsDiagnostic(lines[i - 1]) ==> r.file == ErrorFields(lines[i - 1]).value[0]) &&
      (!IsDiagnostic(lines[i - 1]) ==> r.places == acc) &&
      forall p | p in r.places[|acc|..] :: Witnessed(lines, r.file, p)
    decreases |lines| - i
  {
    var r := ScanRun(lines, i, acc).value;
    match ErrorFields(lines[i - 1])
    case None =>
    case Some(c) =>
      match ParseInt(c[1])
      case None =>
      case Some(n) =>
        if Contains(lines[i + 1], "^") {
          var p := Place(n, c[4], lines[i], lines[i + 1]);
          var acc' := acc + [p];
          assert DiagnosticAt(lines, i - 1, c[0], p);
          if i + 2 < |lines| && SameFileDiagnostic(lines[i + 2], c[0]) {
            ScanRunSound(lines, i + 3, acc');
          }
          assert r.places[|acc|..] == [p] + r.places[|acc'|..];
        }
  }

  lemma {:induction false} ScanFromInv(lines: seq<string>, i: nat, errors: seq<FileErrors>)
    requires i <= |lines| && Inv(lines, errors) && ScanFrom(lines, i, errors).Some?
    ensures Inv(lines, ScanFrom(lines, i, errors).value)
    decreases |lines| - i
  {
    if i < |lines| {
      if !LineIsPlace(lines[i]) {
        ScanFromInv(lines, i + 1, errors);
      } else {
        var run := ScanRun(lines, i + 1, []).value;
        ScanRunSound(lines, i + 1, []);
        assert run.places[0..] == run.places;
        MergeInv(lines, errors, run.file, run.places);
        ScanFromInv(lines, run.next, Merge(errors, run.file, run.places));
      }
    }
  }

  /**
   * The parser's result: one entry per file, entries sorted by file name, each entry's places
   * non-empty and sorted by line, and every place read from a complete block of the output.
   */
  lemma CompilationErrorsWellFormed(lines: seq<string>)
    requires CompilationErrors(lines).Some?
    ensures var es := CompilationErrors(lines).value;
      UniqueFiles(es) && SortedByName(es) &&
      forall e | e in es :: EntryOk(e) && EntrySound(lines, e)
  {
    ScanFromInv(lines, 0, []);
    var scanned := ScanFrom(lines, 0, []).value;
    SortUnique(scanned);
    forall e | e in SortByName(scanned)
      ensures EntryOk(e) && EntrySound(lines, e)
    {
      assert e in multiset(SortByName(scanned));
    }
  }

  /** The parser traps only when a numbered diagnostic line lacks its two following lines. */
  lemma {:induction false} FollowersSuffice(lines: seq<string>)
    requires forall i | 0 <= i < |lines| && IsNumbered(lines[i]) :: i + 2 < |lines|
    ensures CompilationErrors(lines).Some?
  {
    ScanFromDefined(lines, 0, []);
  }

  lemma {:induction false} ScanFromDefined(lines: seq<string>, i: nat, errors: seq<FileErrors>)
    requires i <= |lines|
    requires forall i | 0 <= i < |lines| && IsNumbered(lines[i]) :: i + 2 < |lines|
    ensures ScanFrom(lines, i, errors).Some?
    decreases |lines| - i
  {
    if i < |lines| {
      if !LineIsPlace(lines[i]) {
        ScanFromDefined(lines, i + 1, errors);
      } else {
        ScanRunDefined(lines, i + 1, []);
        var run := ScanRun(lines, i + 1, []).value;
        ScanFromDefined(lines, run.next, Merge(errors, run.file, run.places));
      }
    }
  }

  lemma {:induction false} ScanRunDefined(lines: seq<string>, i: nat, acc: seq<Place>)
    requires 0 < i <= |lines| && LineIsPlace(lines[i - 1])
    requires forall i | 0 <= i < |lines| && IsNumbered(lines[i]) :: i + 2 < |lines|
    ensures ScanRun(lines, i, acc).Some?
    decreases |lines| - i
  {
    match ErrorFields(lines[i - 1])
    case None =>
    case Some(c) =>
      match ParseInt(c[1])
      case None =>
      case Some(n) =>
        assert IsNumbered(lines[i - 1]);
        if Contains(lines[i + 1], "^") && i + 2 < |lines| && SameFileDiagnostic(lines[i + 2], c[0]) {
          ScanRunDefined(lines, i + 3, acc + [Place(n, c[4], lines[i], lines[i + 1])]);
        }
  }

  /** Output without a single error line yields no errors, so the build reports it unparsed. */
  lemma NoDiagnosticsNoErrors(lines: seq<string>)
    requires forall i | 0 <= i < |lines| :: !IsDiagnostic(lines[i])
    ensures CompilationErrors(lines) == Some([])
  {
    NoDiagnosticsScan(lines, 0);
  }

  lemma {:induction false} NoDiagnosticsScan(lines: seq<string>, i: nat)
    requires i <= |lines|
    requires forall i | 0 <= i < |lines| :: !IsDiagnostic(lines[i])
    ensures ScanFrom(lines, i, []) == Some([])
    decreases |lines| - i
  {
    if i < |lines| {
      NoDiagnosticsScan(lines, i + 1);
      if LineIsPlace(lines[i]) {
        assert !IsDiagnostic(lines[i]);
        assert ScanRun(lines, i + 1, []) == Some(Run(i + 1, "", []));
      }
    }
  }

  /** A complete block at the top of the output is always reported. */
  lemma FirstBlockReported(lines: seq<string>, file: string, p: Place)
    requires DiagnosticAt(lines, 0, file, p)
    requires CompilationErrors(lines).Some?
    ensures Reports(CompilationErrors(lines).value, file, p)
  {
    var run := ScanRun(lines, 1, []).value;
    FirstRun(lines, file, p);
    var merged := Merge([], file, run.places);
    assert Reports(merged, file, p) by {
      assert merged == [FileErrors(file, SortByLine(run.places))];
      assert p in multiset(SortByLine(run.places));
      assert merged[0] in merged;
    }
    assert ScanFrom(lines, 0, []) == ScanFrom(lines, run.next, merged);
    ScanFromKeepsReports(lines, run.next, merged, file, p);
    var scanned := ScanFrom(lines, 0, []).value;
    var e :| e in scanned && e.file == file && p in e.places;
    assert e in multiset(SortByName(scanned));
  }

  lemma FirstRun(lines: seq<string>, file: string, p: Place)
    requires DiagnosticAt(lines, 0, file, p)
    ensures ScanRun(lines, 1, []).Some? ==>
      var run := ScanRun(lines, 1, []).value; run.file == file && p in run.places
  {
    BlockStep(lines, 1, file, p, []);
    assert [] + [p] == [p];
    if ScanRun(lines, 1, []).Some? {
      var run := ScanRun(lines, 1, []).value;
      if 3 < |lines| && SameFileDiagnostic(lines[3], file) {
        assert ScanRun(lines, 1, []) == ScanRun(lines, 4, [p]);
        ScanRunSound(lines, 4, [p]);
      }
      assert [p] <= run.places;
    }
  }

  lemma {:induction false} ScanFromKeepsReports(lines: seq<string>, i: nat, errors: seq<FileErrors>,
                                                file: string, p: Place)
    requires i <= |lines| && Reports(errors, file, p) && ScanFrom(lines, i, errors).Some?
    ensures Reports(ScanFrom(lines, i, errors).value, file, p)
    decreases |lines| - i
  {
    if i < |lines| {
      if !LineIsPlace(lines[i]) {
        ScanFromKeepsReports(lines, i + 1, errors, file, p);
      } else {
        var run := ScanRun(lines, i + 1, []).value;
        MergeKeepsReports(errors, run.file, run.places, file, p);
        ScanFromKeepsReports(lines, run.next, Merge(errors, run.file, run.places), file, p);
      }
    }
  }

  // ---------------------------------------------------------------- merging

  lemma HasKeyGrows(a: seq<Place>, b: seq<Place>, p: Place)
    requires a <= b && HasKey(a, p)
    ensures HasKey(b, p)
  {
    var q :| q in a && SameKey(q, p);
    var i :| 0 <= i < |a| && a[i] == q;
    assert b[i] == q;
  }

  /** The de-duplicating append: keeps what was there, adds every missing key once, and adds
      nothing whose key was already present. */
  lemma {:induction false} AddMissingFacts(existing: seq<Place>, run: seq<Place>)
    ensures var r := AddMissing(existing, run);
      existing <= r &&
      (forall p | p in run :: HasKey(r, p)) &&
      (forall q | q in r :: q in existing || (q in run && !HasKey(existing, q))) &&
      (NoDuplicateKeys(existing) ==> NoDuplicateKeys(r))
    decreases |run|
  {
    if run != [] {
      var next := if HasKey(existing, run[0]) then existing else existing + [run[0]];
      AddMissingFacts(next, run[1..]);
      var r := AddMissing(next, run[1..]);
      assert existing <= next;
      assert HasKey(next, run[0]) by {
        if !HasKey(existing, run[0]) {
          assert next[|existing|] == run[0];
        }
      }
      HasKeyGrows(next, r, run[0]);
      forall q | q in r
        ensures q in existing || (q in run && !HasKey(existing, q))
      {
        if q !in next {
          if HasKey(existing, q) {
            HasKeyGrows(existing, next, q);
          }
        }
      }
      if NoDuplicateKeys(existing) && !HasKey(existing, run[0]) {
        forall i, j | 0 <= i < j < |next|
          ensures !SameKey(next[i], next[j])
        {
          if j == |existing| {
            assert next[i] in existing;
          }
        }
      }
    }
  }

  lemma {:induction false} InsertByLineNoDuplicates(p: Place, ps: seq<Place>)
    requires SortedByLine(ps) && NoDuplicateKeys(ps) && !HasKey(ps, p)
    ensures NoDuplicateKeys(InsertByLine(p, ps))
    decreases |ps|
  {
    var r := InsertByLine(p, ps);
    if ps == [] || p.line <= ps[0].line {
      forall j | 0 < j < |r|
        ensures !SameKey(r[0], r[j])
      {
        assert r[j] == ps[j - 1];
        assert ps[j - 1] in ps;
      }
    } else {
      InsertByLineNoDuplicates(p, ps[1..]);
      var rest := InsertByLine(p, ps[1..]);
      forall j | 0 <= j < |rest|
        ensures !SameKey(ps[0], rest[j])
      {
        assert rest[j] in multiset(ps[1..]) + multiset{p};
        if rest[j] != p {
          assert rest[j] in ps[1..];
          var m :| 0 <= m < |ps[1..]| && ps[1..][m] == rest[j];
          assert ps[m + 1] == rest[j];
        } else {
          assert ps[0] in ps;
        }
      }
      assert r == [ps[0]] + rest;
    }
  }

  /** Sorting by line keeps a list free of repeated keys. */
  lemma {:induction false} SortByLineNoDuplicates(ps: seq<Place>)
    requires NoDuplicateKeys(ps)
    ensures NoDuplicateKeys(SortByLine(ps))
    decreases |ps|
  {
    if ps != [] {
      var tail := ps[1..];
      assert NoDuplicateKeys(tail) by {
        forall i, j | 0 <= i < j < |tail|
          ensures !SameKey(tail[i], tail[j])
        {
          assert tail[i] == ps[i + 1] && tail[j] == ps[j + 1];
        }
      }
      SortByLineNoDuplicates(tail);
      var sorted := SortByLine(tail);
      forall q | q in sorted
        ensures !SameKey(q, ps[0])
      {
        assert q in multiset(tail);
        var m :| 0 <= m < |tail| && tail[m] == q;
        assert ps[m + 1] == q;
      }
      InsertByLineNoDuplicates(ps[0], sorted);
    }
  }

  lemma MergeInv(lines: seq<string>, errors: seq<FileErrors>, file: string, run: seq<Place>)
    requires Inv(lines, errors)
    requires forall p | p in run :: Witnessed(lines, file, p)
    ensures Inv(lines, Merge(errors, file, run))
  {
    if run != [] {
      var merged := Merge(errors, file, run);
      match IndexOfFile(errors, file)
      case Some(k) =>
        var prior := errors[k].places;
        var added := AddMissing(prior, run);
        AddMissingFacts(prior, run);
        assert errors[k] in errors;
        var e := FileErrors(file, SortByLine(added));
        assert |e.places| == |added| by {
          assert |multiset(e.places)| == |multiset(added)|;
        }
        forall p | p in e.places
          ensures Witnessed(lines, file, p)
        {
          assert p in multiset(added);
        }
        assert merged == errors[k := e];
        forall x | x in merged
          ensures EntryOk(x) && EntrySound(lines, x)
        {
          var j :| 0 <= j < |merged| && merged[j] == x;
          if j != k {
            assert errors[j] in errors;
          }
        }
      case None =>
        var e := FileErrors(file, SortByLine(run));
        assert |e.places| == |run| by {
          assert |multiset(e.places)| == |multiset(run)|;
        }
        forall p | p in e.places
          ensures Witnessed(lines, file, p)
        {
          assert p in multiset(run);
        }
        assert merged == errors + [e];
    }
  }

  lemma MergeKeepsReports(errors: seq<FileErrors>, f: string, run: seq<Place>, file: string, p: Place)
    requires Reports(errors, file, p)
    ensures Reports(Merge(errors, f, run), file, p)
  {
    var e :| e in errors && e.file == file && p in e.places;
    var j :| 0 <= j < |errors| && errors[j] == e;
    var merged := Merge(errors, f, run);
    if run != [] {
      match IndexOfFile(errors, f)
      case Some(k) =>
        if j == k {
          AddMissingFacts(e.places, run);
          var added := AddMissing(e.places, run);
          assert p in multiset(SortByLine(added));
        }
        assert merged[j] in merged;
      case None =>
        assert merged[j] == e;
    }
  }

  /**
   * `gracefulExit` into an entry that exists: other entries are untouched; the entry keeps
   * all its places, gains a place for every key of the run, gains only places of the run
   * whose key it lacked, and stays free of repeated keys.
   */
  lemma MergeIntoExisting(errors: seq<FileErrors>, file: string, run: seq<Place>, k: nat)
    requires run != [] && IndexOfFile(errors, file) == Some(k)
    ensures var merged := Merge(errors, file, run);
      |merged| == |errors| && merged[k].file == file &&
      (forall j | 0 <= j < |errors| && j != k :: merged[j] == errors[j]) &&
      multiset(errors[k].places) <= multiset(merged[k].places) &&
      (forall p | p in run :: HasKey(merged[k].places, p)) &&
      (forall q | q in merged[k].places ::
         q in errors[k].places || (q in run && !HasKey(errors[k].places, q))) &&
      (NoDuplicateKeys(errors[k].places) ==> NoDuplicateKeys(merged[k].places))
  {
    var prior := errors[k].places;
    var added := AddMissing(prior, run);
    AddMissingFacts(prior, run);
    var sorted := SortByLine(added);
    assert multiset(prior) <= multiset(added) by {
      assert added == prior + added[|prior|..];
    }
    forall p | p in run
      ensures HasKey(sorted, p)
    {
      var q :| q in added && SameKey(q, p);
      assert q in multiset(sorted);
    }
    forall q | q in sorted
      ensures q in prior || (q in run && !HasKey(prior, q))
    {
      assert q in multiset(added);
    }
    if NoDuplicateKeys(prior) {
      SortByLineNoDuplicates(added);
    }
  }

  /** `gracefulExit` for a file not yet reported: a new last entry holding the run sorted by
      line, repeated keys included. */
  lemma MergeNewFile(errors: seq<FileErrors>, file: string, run: seq<Place>)
    requires run != [] && IndexOfFile(errors, file).None?
    ensures var merged := Merge(errors, file, run);
      |merged| == |errors| + 1 && merged[..|errors|] == errors &&
      merged[|errors|].file == file && SortedByLine(merged[|errors|].places) &&
      multiset(merged[|errors|].places) == multiset(run)
  {
  }

  // ---------------------------------------------------------------- sorting by name

  lemma {:induction false} InsertUnique(e: FileErrors, es: seq<FileErrors>)
    requires SortedByName(es) && UniqueFiles(es)
    requires forall x | x in es :: x.file != e.file
    ensures UniqueFiles(InsertByName(e, es))
    decreases |es|
  {
    if !(es == [] || !LexLess(NameKey(es[0]), NameKey(e))) {
      var tail := es[1..];
      assert UniqueFiles(tail) by {
        forall i, j | 0 <= i < j < |tail|
          ensures tail[i].file != tail[j].file
        {
          assert tail[i] == es[i + 1] && tail[j] == es[j + 1];
        }
      }
      InsertUnique(e, tail);
      var rest := InsertByName(e, tail);
      forall j | 0 <= j < |rest|
        ensures es[0].file != rest[j].file
      {
        assert rest[j] in multiset(tail) + multiset{e};
        if rest[j] != e {
          var m :| 0 <= m < |tail| && tail[m] == rest[j];
          assert es[m + 1] == rest[j];
        } else {
          assert es[0] in es;
        }
      }
      assert InsertByName(e, es) == [es[0]] + rest;
    } else {
      var r := InsertByName(e, es);
      forall j | 0 < j < |r|
        ensures r[0].file != r[j].file
      {
        assert r[j] == es[j - 1];
      }
    }
  }

  /** Sorting entries by file name keeps one entry per file. */
  lemma {:induction false} SortUnique(es: seq<FileErrors>)
    requires UniqueFiles(es)
    ensures UniqueFiles(SortByName(es))
    decreases |es|
  {
    if es != [] {
      var tail := es[1..];
      assert UniqueFiles(tail) by {
        forall i, j | 0 <= i < j < |tail|
          ensures tail[i].file != tail[j].file
        {
          assert tail[i] == es[i + 1] && tail[j] == es[j + 1];
        }
      }
      SortUnique(tail);
      var sorted := SortByName(tail);
      forall x | x in sorted
        ensures x.file != es[0].file
      {
        assert x in multiset(tail);
        var m :| 0 <= m < |tail| && tail[m] == x;
        assert es[m + 1] == x;
      }
      InsertUnique(es[0], sorted);
    }
  }

  // ---------------------------------------------------------------- worked examples

  /** A complete block adds its place to the run, which goes on when the next line is an
      error line for the same file. */
  lemma BlockStep(lines: seq<string>, i: nat, file: string, p: Place, acc: seq<Place>)
    requires 0 < i && DiagnosticAt(lines, i - 1, file, p)
    ensures ScanRun(lines, i, acc) ==
      if i + 2 < |lines| && SameFileDiagnostic(lines[i + 2], file) then ScanRun(lines, i + 3, acc + [p])
      else Some(Run(i + 2, file, acc + [p]))
  {
    var c := ErrorFields(lines[i - 1]).value;
    assert ErrorFields(lines[i - 1]) == Some(c);
    assert Place(p.line, c[4], lines[i], lines[i + 1]) == p;
  }

  /** The outer loop at a place line runs `parsePlace` and continues after the run. */
  lemma ScanFromStep(lines: seq<string>, i: nat, errors: seq<FileErrors>, run: Run)
    requires i < |lines| && LineIsPlace(lines[i]) && ScanRun(lines, i + 1, []) == Some(run)
    ensures ScanFrom(lines, i, errors) == ScanFrom(lines, run.next, Merge(errors, run.file, run.places))
  {
  }

  /** A block not followed by another error line for its file makes a run of one place. */
  lemma SingleBlockRun(lines: seq<string>, i: nat, file: string, p: Place)
    requires 0 < i && DiagnosticAt(lines, i - 1, file, p)
    requires i + 2 < |lines| ==> !SameFileDiagnostic(lines[i + 2], file)
    ensures ScanRun(lines, i, []) == Some(Run(i + 2, file, [p]))
  {
    BlockStep(lines, i, file, p, []);
    assert [] + [p] == [p];
  }

  /** The first run for a file becomes a new entry holding it sorted. */
  lemma MergeFresh(file: string, run: seq<Place>)
    requires run != []
    ensures Merge([], file, run) == [FileErrors(file, SortByLine(run))]
  {
  }

  /** Two blocks for one file at lines 0 and 3 of a six-line output form a single run. */
  lemma TwoBlocksOneRun(lines: seq<string>, file: string, a: Place, b: Place)
    requires |lines| == 6
    requires DiagnosticAt(lines, 0, file, a) && DiagnosticAt(lines, 3, file, b)
    ensures ScanRun(lines, 1, []) == Some(Run(6, file, [a, b]))
  {
    BlockStep(lines, 1, file, a, []);
    BlockStep(lines, 4, file, b, [a]);
    assert SameFileDiagnostic(lines[3], file);
    assert [] + [a] == [a] && [a] + [b] == [a, b];
  }

  /** Two consecutive blocks for one file make one run holding both places. */
  lemma TwoBlockRun(lines: seq<string>, file: string, a: Place, b: Place)
    requires |lines| == 6
    requires DiagnosticAt(lines, 0, file, a) && DiagnosticAt(lines, 3, file, b)
    ensures ScanFrom(lines, 0, []) == Some([FileErrors(file, SortByLine([a, b]))])
  {
    TwoBlocksOneRun(lines, file, a, b);
    var merged := [FileErrors(file, SortByLine([a, b]))];
    MergeFresh(file, [a, b]);
    ScanFromStep(lines, 0, [], Run(6, file, [a, b]));
    assert ScanFrom(lines, 6, merged) == Some(merged);
  }

  /** Two consecutive blocks for one file, at lines 10 and then 7, become one entry whose
      places are in line order. */
  lemma ConsecutiveBlocksSorted(lines: seq<string>, file: string, a: Place, b: Place)
    requires |lines| == 6
    requires DiagnosticAt(lines, 0, file, a) && DiagnosticAt(lines, 3, file, b)
    requires b.line < a.line
    ensures CompilationErrors(lines) == Some([FileErrors(file, [b, a])])
  {
    TwoBlockRun(lines, file, a, b);
    assert SortByLine([a, b]) == [b, a] by {
      assert SortByLine([b]) == [b];
      assert [a, b][1..] == [b];
    }
    var merged := [FileErrors(file, [b, a])];
    assert SortByName(merged) == merged;
  }

  /** The same error reported by two separate blocks is listed once. */
  lemma RepeatedBlockMergedOnce(lines: seq<string>, file: string, a: Place, b: Place)
    requires |lines| == 7
    requires DiagnosticAt(lines, 0, file, a) && !LineIsPlace(lines[3]) && DiagnosticAt(lines, 4, file, b)
    requires SameKey(a, b)
    ensures CompilationErrors(lines) == Some([FileErrors(file, [a])])
  {
    var first := [FileErrors(file, [a])];
    RepeatMerged(file, a, b);
    SecondRunMerged(lines, file, b, first);
    assert !SameFileDiagnostic(lines[3], file);
    SingleBlockRun(lines, 1, file, a);
    ScanFromStep(lines, 0, [], Run(3, file, [a]));
    assert SortByName(first) == first;
  }

  /** The second run of the example, merged into what the first left. */
  lemma SecondRunMerged(lines: seq<string>, file: string, b: Place, first: seq<FileErrors>)
    requires |lines| == 7 && !LineIsPlace(lines[3]) && DiagnosticAt(lines, 4, file, b)
    requires Merge(first, file, [b]) == first
    ensures ScanFrom(lines, 3, first) == Some(first)
  {
    SingleBlockRun(lines, 5, file, b);
    assert ScanFrom(lines, 7, first) == Some(first);
    ScanFromStep(lines, 4, first, Run(7, file, [b]));
  }

  /** Merging: the first place starts the entry, and a place with its key adds nothing. */
  lemma RepeatMerged(file: string, a: Place, b: Place)
    requires SameKey(a, b)
    ensures Merge([], file, [a]) == [FileErrors(file, [a])]
    ensures Merge([FileErrors(file, [a])], file, [b]) == [FileErrors(file, [a])]
  {
    assert SortByLine([a]) == [a];
    assert HasKey([a], b);
    assert AddMissing([a], [b]) == [a];
  }

  /** Within one run the same error is not de-duplicated: both places are kept. */
  lemma SameRunKeepsRepeats(lines: seq<string>, file: string, a: Place)
    requires |lines| == 6
    requires DiagnosticAt(lines, 0, file, a) && DiagnosticAt(lines, 3, file, a)
    ensures CompilationErrors(lines) == Some([FileErrors(file, [a, a])])
  {
    TwoBlockRun(lines, file, a, a);
    assert SortByLine([a, a]) == [a, a] by {
      assert SortByLine([a]) == [a];
      assert [a, a][1..] == [a];
    }
    var merged := [FileErrors(file, [a, a])];
    assert SortByName(merged) == merged;
  }
}
