/**
 * `Downloader.download`: fetches an archive, prints one notice as the transfer passes 25, 50
 * and 75 percent, and moves the temporary file next to itself under the link's file name.
 */
module Downloader {
  import opened Wrappers
  import opened Strings
  import opened Host
  import opened Paths

  /** The progress notices, in the order the observer prints them. */
  const Milestones: seq<string> := ["25% not bad \U{1F603}", "50% hold on \U{1F917}", "75% almost done \U{1F60F}"]

  /** The percentage the transfer must reach before notice `k` may be printed. */
  function Threshold(k: nat): real
    requires k < |Milestones|
  {
    25.0 * (k + 1) as real
  }

  /** The observer's counter after one progress callback at `fraction` of the transfer: it
      moves to the next notice exactly when the next threshold has been reached. */
  function Observe(count: nat, fraction: real): (next: nat)
    ensures count < |Milestones| && fraction * 100.0 >= Threshold(count) ==> next == count + 1
    ensures !(count < |Milestones| && fraction * 100.0 >= Threshold(count)) ==> next == count
  {
    var p := fraction * 100.0;
    if p >= 25.0 && count == 0 then 1
    else if p >= 50.0 && count == 1 then 2
    else if p >= 75.0 && count == 2 then 3
    else count
  }

  /** The counter after the callbacks `fractions`, in order. */
  function ProgressCount(fractions: seq<real>): (count: nat)
    ensures count <= |Milestones| && count <= |fractions|
    decreases |fractions|
  {
    if fractions == [] then 0
    else Observe(ProgressCount(fractions[..|fractions| - 1]), Last(fractions))
  }

  /** The observer closure run over the callbacks: the notices printed are the first `count`
      milestones, each once and in order. */
  method ObserveProgress(fractions: seq<real>) returns (count: nat, printed: seq<string>)
    ensures count == ProgressCount(fractions)
    ensures printed == Milestones[..count]
  {
    count := 0;
    printed := [];
    for i := 0 to |fractions|
      invariant count == ProgressCount(fractions[..i])
      invariant printed == Milestones[..count]
    {
      assert fractions[..i + 1][..i] == fractions[..i];
      var p := fractions[i] * 100.0;
      if p >= 25.0 && count == 0 {
        count := count + 1;
        printed := printed + ["25% not bad \U{1F603}"];
      } else if p >= 50.0 && count == 1 {
        count := count + 1;
        printed := printed + ["50% hold on \U{1F917}"];
      } else if p >= 75.0 && count == 2 {
        count := count + 1;
        printed := printed + ["75% almost done \U{1F60F}"];
      }
    }
    assert fractions[..|fractions|] == fractions;
  }

  /** Later callbacks never lower the counter. */
  lemma {:induction false} ProgressGrows(fs: seq<real>, gs: seq<real>)
    ensures ProgressCount(fs) <= ProgressCount(fs + gs)
    decreases |gs|
  {
    if gs == [] {
      assert fs + gs == fs;
    } else {
      var init := gs[..|gs| - 1];
      assert (fs + gs)[..|fs + gs| - 1] == fs + init;
      ProgressGrows(fs, init);
    }
  }

  /** One callback prints at most one notice. */
  lemma ProgressOneStep(fs: seq<real>, f: real)
    ensures ProgressCount(fs + [f]) <= ProgressCount(fs) + 1
  {
    assert (fs + [f])[..|fs|] == fs;
  }

  /** A notice is printed only once the transfer has reached its threshold. */
  lemma {:induction false} ProgressEarned(fs: seq<real>, k: nat)
    requires k < ProgressCount(fs)
    ensures exists i | 0 <= i < |fs| :: fs[i] * 100.0 >= Threshold(k)
    decreases |fs|
  {
    var init := fs[..|fs| - 1];
    if k < ProgressCount(init) {
      ProgressEarned(init, k);
      var i :| 0 <= i < |init| && init[i] * 100.0 >= Threshold(k);
      assert fs[i] == init[i];
    } else {
      assert fs[|fs| - 1] * 100.0 >= Threshold(k);
    }
  }

  /** Where the archive ends up: the temporary file's folder joined with the link's last
      path component. */
  function FinalPath(location: string, link: string): string {
    Append(Parent(location), LastComponent(link))
  }

  /** The final file sits in the temporary file's folder and is named after the link. */
  lemma FinalPathNamedAfterLink(location: string, link: string)
    requires StartsWith(Parent(location), "/") && !EndsWith(Parent(location), "/")
    ensures Parent(FinalPath(location, link)) == Parent(location)
    ensures LastComponent(FinalPath(location, link)) == LastComponent(link)
  {
    SplitPartsFree(link, "/");
    NoSlash(LastComponent(link));
    AppendComponent(Parent(location), LastComponent(link));
  }

  const WaitNotice: string := "\U{1F6B0} Please wait... downloading "
  const DoneNotice: string := "100% yaaay! \U{1F44D}"

  /** What the transfer reports is unusable, and the download fails. */
  predicate TransferFailed(t: Transfer) {
    t.failed || t.httpStatus != 200 || t.location.None? || !t.kept
  }

  /** The fatal message for an unusable transfer, checked in the order the completion
      handler checks. */
  function TransferProblem(t: Transfer, name: string): string {
    if t.failed then "\U{26D4}\U{FE0F} Unable to download " + name
    else if t.httpStatus != 200 then "\U{26D4}\U{FE0F} Unable to download " + name + ", http code is not 200"
    else if t.location.None? then "\U{26D4}\U{FE0F} Unable to get path of the downloaded " + name
    else "\U{26D4}\U{FE0F} Seems downloaded " + name + " has unexpectedly disappeared from the temp folder"
  }

  /** Everything `download(name, size, link)` does to the machine when the transfer of `link`
      reports `t`, starting from the paths `files`. */
  function DownloadOutcome(files: set<string>, t: Transfer, name: string, link: string): (o: Outcome)
    ensures o.actions != [] && o.actions[0] == Fetched(link)
    ensures o.status.Ok? || o.status.Fatal?
    ensures TransferFailed(t) ==> o.status.Fatal? && o.actions == [Fetched(link)]
    ensures !TransferFailed(t) ==>
      var location := t.location.value;
      var final := FinalPath(location, link);
      (o.status.Ok? <==> location != final) &&
      (o.status.Ok? ==> final in o.files && location !in o.files) &&
      forall p | p != location && p != final :: p in o.files <==> p in files
  {
    if TransferFailed(t) then Outcome(Fatal(TransferProblem(t, name)), [Fetched(link)], AfterTransfer(files, t))
    else
      var location := t.location.value;
      var final := FinalPath(location, link);
      Outcome(if location != final then Ok else Fatal(MoveProblem(name)),
              [Fetched(link), Removed(final), Moved(location, final)],
              Settled(AfterTransfer(files, t), location, final))
  }

  function MoveProblem(name: string): string {
    "\U{26D4}\U{FE0F} Unable to prepare temp file for " + name
  }

  /** What the download prints: the waiting notice, the milestones the progress reached, and
      the completion notice once the transfer went through. */
  function Printed(t: Transfer, name: string, size: string, link: string): seq<string> {
    [WaitNotice + name + " (about " + size + ") from " + link] + Milestones[..ProgressCount(t.progress)]
      + (if TransferFailed(t) then [] else [DoneNotice])
  }

  /**
   * `download(name, size, link)`: the transfer must have no transport error, status 200, a
   * temporary file that still exists; then the file is moved to its final path, named after
   * the link, which is returned. Every failure is fatal.
   */
  method Download(m: Machine, name: string, size: string, link: string)
      returns (st: Status, path: string, printed: seq<string>)
    modifies m
    ensures var t := m.transfer(link);
      var o := DownloadOutcome(old(m.files), t, name, link);
      st == o.status && m.trace == old(m.trace) + o.actions && m.files == o.files &&
      printed == Printed(t, name, size, link) &&
      (!TransferFailed(t) ==> path == FinalPath(t.location.value, link))
  {
    var t := m.Fetch(link);
    var count, notices := ObserveProgress(t.progress);
    printed := [WaitNotice + name + " (about " + size + ") from " + link] + notices;
    path := "";
    if t.failed {
      return Fatal("\U{26D4}\U{FE0F} Unable to download " + name), path, printed;
    }
    if t.httpStatus != 200 {
      return Fatal("\U{26D4}\U{FE0F} Unable to download " + name + ", http code is not 200"), path, printed;
    }
    if t.location.None? {
      return Fatal("\U{26D4}\U{FE0F} Unable to get path of the downloaded " + name), path, printed;
    }
    var location := t.location.value;
    if !m.Exists(location) {
      return Fatal("\U{26D4}\U{FE0F} Seems downloaded " + name + " has unexpectedly disappeared from the temp folder"),
             path, printed;
    }
    printed := printed + [DoneNotice];
    path := FinalPath(location, link);
    st := Settle(m, name, location, path);
  }

  /** The paths after clearing `final` and moving the temporary file there. */
  function Settled(files: set<string>, location: string, final: string): (r: set<string>)
    requires location in files
    ensures location != final ==> final in r && location !in r
    ensures location == final ==> final !in r
    ensures forall p | p != location && p != final :: p in r <==> p in files
  {
    if location != final then files - {final} - {location} + {final} else files - {final}
  }

  /** The `do` block: any file at the final path is removed first, then the move must succeed. */
  method Settle(m: Machine, name: string, location: string, final: string) returns (st: Status)
    requires location in m.files
    modifies m
    ensures st == (if location != final then Ok else Fatal(MoveProblem(name)))
    ensures m.files == Settled(old(m.files), location, final)
    ensures m.trace == old(m.trace) + [Removed(final), Moved(location, final)]
  {
    m.Remove(final);
    var moved := m.Move(location, final);
    if !moved {
      return Fatal(MoveProblem(name));
    }
    st := Ok;
  }
}
