/**
 * The first half of every tool's `_download()`: take the archive the user supplied, or
 * download it, then extract it into the tool's default folder.
 */
module Acquisition {
  import opened Wrappers
  import opened Host
  import opened Downloader
  import opened Extractor
  import opened Strings

  /** Where the archive comes from: the local archive when one is set, otherwise the file
      the download of `url` leaves behind. */
  function ArchivePath(m: Machine, url: string, local: Option<string>): string {
    match local
    case Some(p) => p
    case None => if TransferFailed(m.transfer(url)) then "" else FinalPath(m.transfer(url).location.value, url)
  }

  /** Everything the acquisition does, starting from the paths `files`. */
  function AcquireOutcome(m: Machine, files: set<string>, name: string, url: string,
                          local: Option<string>, dest: string): Outcome
  {
    if local.Some? then ExtractOutcome(m, files, name, local.value, dest)
    else
      var d := DownloadOutcome(files, m.transfer(url), name, url);
      if d.status.Halted() then d
      else
        var e := ExtractOutcome(m, d.files, name, ArchivePath(m, url, local), dest);
        Outcome(e.status, d.actions + e.actions, e.files)
  }

  method Acquire(m: Machine, name: string, size: string, url: string, local: Option<string>, dest: string)
      returns (st: Status)
    modifies m
    ensures var o := AcquireOutcome(m, old(m.files), name, url, local, dest);
      st == o.status && m.trace == old(m.trace) + o.actions && m.files == o.files
  {
    var archive;
    if local.Some? {
      archive := local.value;
    } else {
      st := DownloadThenExtract(m, name, size, url, dest);
      return;
    }
    st := Extract(m, name, archive, dest);
  }

  /** The branch without a local archive: the download, then the extraction of its file. */
  method DownloadThenExtract(m: Machine, name: string, size: string, url: string, dest: string)
      returns (st: Status)
    modifies m
    ensures var o := AcquireOutcome(m, old(m.files), name, url, None, dest);
      st == o.status && m.trace == old(m.trace) + o.actions && m.files == o.files
  {
    ghost var files0, trace0 := m.files, m.trace;
    var path, printed;
    st, path, printed := Download(m, name, size, url);
    if st.Halted() {
      return;
    }
    ghost var d := DownloadOutcome(files0, m.transfer(url), name, url);
    assert !TransferFailed(m.transfer(url));
    assert path == ArchivePath(m, url, None);
    assert m.trace == trace0 + d.actions && m.files == d.files;
    st := Extract(m, name, path, dest);
    Assoc(trace0, d.actions, ExtractOutcome(m, d.files, name, path, dest).actions);
  }

  /** With a local archive nothing is downloaded: the archive given is the one extracted. */
  lemma LocalArchiveNotDownloaded(m: Machine, files: set<string>, name: string, url: string,
                                  archive: string, dest: string)
    ensures var o := AcquireOutcome(m, files, name, url, Some(archive), dest);
      o == ExtractOutcome(m, files, name, archive, dest) &&
      forall k | 0 <= k < |o.actions| :: !o.actions[k].Fetched?
  {
    var o := ExtractOutcome(m, files, name, archive, dest);
    match PlanFor(archive, dest)
    case None =>
    case Some(p) =>
      var pre := Preparing(p, files, dest);
      var run := LaunchOutcome(m, pre.files, name, p);
      assert o.actions == pre.actions + run.actions;
      PreparingFetchesNothing(p, files, dest);
      LaunchFetchesNothing(m, pre.files, name, p);
      NothingFetchedInEither(pre.actions, run.actions);
  }

  lemma PreparingFetchesNothing(p: Plan, files: set<string>, dest: string)
    ensures var acts := Preparing(p, files, dest).actions;
      forall k | 0 <= k < |acts| :: !acts[k].Fetched?
  {
  }

  lemma LaunchFetchesNothing(m: Machine, files: set<string>, name: string, p: Plan)
    ensures var acts := LaunchOutcome(m, files, name, p).actions;
      forall k | 0 <= k < |acts| :: !acts[k].Fetched?
  {
  }

  lemma NothingFetchedInEither(a: seq<Action>, b: seq<Action>)
    requires forall k | 0 <= k < |a| :: !a[k].Fetched?
    requires forall k | 0 <= k < |b| :: !b[k].Fetched?
    ensures forall k | 0 <= k < |a + b| :: !(a + b)[k].Fetched?
  {
  }

  /** Without one the download comes first, and a successful acquisition extracted the very
      file the download produced. */
  lemma DownloadComesFirst(m: Machine, files: set<string>, name: string, url: string, dest: string)
    ensures var o := AcquireOutcome(m, files, name, url, None, dest);
      o.actions != [] && o.actions[0] == Fetched(url) &&
      (o.status.Ok? ==> !TransferFailed(m.transfer(url)) &&
                        ArchivePath(m, url, None) == FinalPath(m.transfer(url).location.value, url))
  {
  }

  /** The acquisition succeeds only when the extraction at the end of it succeeded. */
  lemma AcquiredMeansExtracted(m: Machine, files: set<string>, name: string, url: string,
                               local: Option<string>, dest: string)
    requires AcquireOutcome(m, files, name, url, local, dest).status.Ok?
    ensures var archive := ArchivePath(m, url, local);
      var before := if local.Some? then files else DownloadOutcome(files, m.transfer(url), name, url).files;
      ExtractOutcome(m, before, name, archive, dest).status.Ok? &&
      AcquireOutcome(m, files, name, url, local, dest).files == ExtractOutcome(m, before, name, archive, dest).files
  {
  }
}
