/**
 * `NDK`: finds the Android NDK in the default folder or downloads it, and checks that its
 * `source.properties` mentions the preferred version. The `ndkPath` override is kept in the
 * path field but `prepare()` never consults it.
 */
module NdkTool {
  import opened Wrappers
  import opened Strings
  import opened Host
  import opened Paths
  import opened Acquisition

  /** The major number of a version: the text before its first '.'. */
  function Major(version: string): string {
    Split(version, ".")[0]
  }

  /** `defaultPath` for a version in the tool folder `folder`. */
  function DefaultPathOf(folder: string, version: string): string {
    Append(folder, "android-ndk-r" + Major(version) + "e")
  }

  function PropertiesOf(root: string): string {
    Append(root, "source.properties")
  }

  const PropertiesMissing: string :=
    "\U{26D4}\U{FE0F} Unable to check NDK version, file `source.properties` not found in NDK path"

  /** `checkVersion()` given what reading `source.properties` produced: an unreadable file and
      a file not mentioning the version both exit with 1. */
  function Verdict(properties: Option<string>, version: string): (st: Status)
    ensures st.Ok? || (st.Exit? && st.code == 1)
    ensures st.Ok? <==> properties.Some? && Contains(properties.value, version)
  {
    match properties
    case None => Exit(1, PropertiesMissing)
    case Some(text) =>
      if Contains(text, version) then Ok
      else Exit(1, "\U{26D4}\U{FE0F} NDK version " + text + " differs with preferred version " + version)
  }

  /** What `prepare()` prints before giving up when no NDK can be had. */
  function MissingNotice(url: string): string {
    MissingHead + url + MissingTail
  }

  const MissingHead: string :=
    "\U{26A0}\U{FE0F} Please set `ndkPath` environment variable for the `Run` target which should point to NDK folder.\n"
    + "\U{1F30F} If you haven't downloaded NDK yet\n"
    + "    \U{1F44D} Either enable automatic downloading by declaring `Droidy().automaticallyDownloadNDK()`\n"
    + "    \U{1F481}\U{200D}\U{2642}\U{FE0F} Or get it manually from "
  const MissingTail: string :=
    "\n            and provide a link to downloaded archive by declaring `Droidy().localNDKArchive(...)`"

  const NdkUrl: string := "https://dl.google.com/android/repository/android-ndk-r21e-darwin-x86_64.zip"

  class Ndk {
    /** `_path`: the NDK whose version is checked. */
    var path: string
    var version: string
    var url: string
    /** `predownloadedArchivePath`. */
    var local: Option<string>
    var autoDownload: bool
    /** The tool folder the default path lies in. */
    const folder: string

    /** `init()`: the `ndkPath` environment variable, or the default folder. */
    constructor (env: map<string, string>, folder: string)
      ensures version == "21.4.7075529" && url == NdkUrl && local == None && !autoDownload
      ensures this.folder == folder
      ensures path == (if "ndkPath" in env then env["ndkPath"] else DefaultPathOf(folder, "21.4.7075529"))
    {
      version := "21.4.7075529";
      url := NdkUrl;
      local := None;
      autoDownload := false;
      this.folder := folder;
      path := if "ndkPath" in env then env["ndkPath"] else DefaultPathOf(folder, "21.4.7075529");
    }

    function DefaultPath(): string
      reads this`version
    {
      DefaultPathOf(folder, version)
    }

    /** `checkVersion()`: reads `source.properties` under the current path; nothing changes. */
    method CheckVersion(m: Machine) returns (st: Status)
      ensures st == Verdict(m.contents(PropertiesOf(path)), version)
    {
      var data := m.contents(Append(path, "source.properties"));
      if data.None? {
        return Exit(1, PropertiesMissing);
      }
      var text := data.value;
      if !Contains(text, version) {
        return Exit(1, "\U{26D4}\U{FE0F} NDK version " + text + " differs with preferred version " + version);
      }
      st := Ok;
    }

    /**
     * `prepare()`: an existing default folder is adopted and checked; otherwise, when allowed,
     * `_download()` acquires the archive into the default folder, adopts it and checks it;
     * otherwise the tool exits with 1. The path held before the call plays no part.
     */
    method Prepare(m: Machine) returns (st: Status)
      modifies m, this`path
      ensures DefaultPath() in old(m.files) ==>
        path == DefaultPath() && st == Verdict(m.contents(PropertiesOf(DefaultPath())), version) &&
        m.files == old(m.files) && m.trace == old(m.trace)
      ensures DefaultPath() !in old(m.files) && autoDownload ==>
        var a := AcquireOutcome(m, old(m.files), "NDK archive", url, local, DefaultPath());
        m.files == a.files && m.trace == old(m.trace) + a.actions &&
        if a.status.Halted() then st == a.status && path == old(path)
        else path == DefaultPath() && st == Verdict(m.contents(PropertiesOf(DefaultPath())), version)
      ensures DefaultPath() !in old(m.files) && !autoDownload ==>
        st == Exit(1, MissingNotice(url)) && path == old(path) &&
        m.files == old(m.files) && m.trace == old(m.trace)
    {
      if m.Exists(DefaultPath()) {
        path := DefaultPath();
        st := CheckVersion(m);
        return;
      }
      if autoDownload {
        st := Download(m);
        return;
      }
      st := Exit(1, MissingNotice(url));
    }

    /** `_download()`: acquires the archive into the default folder, adopts it and checks it. */
    method Download(m: Machine) returns (st: Status)
      modifies m, this`path
      ensures var a := AcquireOutcome(m, old(m.files), "NDK archive", url, local, DefaultPath());
        m.files == a.files && m.trace == old(m.trace) + a.actions &&
        if a.status.Halted() then st == a.status && path == old(path)
        else path == DefaultPath() && st == Verdict(m.contents(PropertiesOf(DefaultPath())), version)
    {
      st := Acquire(m, "NDK archive", "1Gb", url, local, DefaultPath());
      if st.Halted() {
        return;
      }
      path := DefaultPath();
      st := CheckVersion(m);
    }
  }

  // ---------------------------------------------------------------- properties

  /** The major number is the text before the first '.', whatever follows it. */
  lemma MajorOf(major: string, rest: string)
    requires '.' !in major
    ensures Major(major + "." + rest) == major
  {
    SplitAfter(major, rest, ".");
  }

  /** The default folder of the pinned version is `android-ndk-r21e` inside the tool folder. */
  lemma DefaultFolderOfPinnedVersion(folder: string)
    requires StartsWith(folder, "/") && !EndsWith(folder, "/")
    ensures Parent(DefaultPathOf(folder, "21.4.7075529")) == folder
    ensures LastComponent(DefaultPathOf(folder, "21.4.7075529")) == "android-ndk-r21e"
  {
    assert "21.4.7075529" == "21" + "." + "4.7075529";
    MajorOf("21", "4.7075529");
    var name := "android-ndk-r" + "21" + "e";
    assert name == "android-ndk-r21e";
    AppendComponent(folder, name);
  }

  /** Versions sharing a major number share a default folder. */
  lemma SameMajorSameFolder(folder: string, major: string, r1: string, r2: string)
    requires '.' !in major
    ensures DefaultPathOf(folder, major + "." + r1) == DefaultPathOf(folder, major + "." + r2)
  {
    MajorOf(major, r1);
    MajorOf(major, r2);
  }
}
